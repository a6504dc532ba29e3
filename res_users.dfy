/**
  Users imported from the remote side: the values prepared from each remote
  user, the upsert keyed by remote id (with the password applied after the
  write), and the import of one user's carts.
*/
module ResUsers {
  import opened Common
  import opened Schema
  import opened Sync
  import opened ApiClient
  import SaleOrder

  const PortalGroup := "base.group_portal"

  /** One element of the remote `users` list. */
  datatype RemoteUser = RemoteUser(
    id: int,
    firstName: string,
    lastName: string,
    maidenName: string,
    email: string,
    username: string,
    password: string,
    profile: Profile,
    image: Option<string>)   // None when the key is absent

  /**
    The `name` expression as the operators bind it: the first non-empty of the
    first, maiden and last names, else "" (not their concatenation).
  */
  function DisplayName(first: string, maiden: string, last: string): (r: string)
    ensures first != "" ==> r == first
    ensures first == "" && maiden != "" ==> r == maiden
    ensures first == "" && maiden == "" ==> r == last
  {
    if first != "" then first else if maiden != "" then maiden else if last != "" then last else ""
  }

  /**
    A user with a first name is named by it alone; whenever a maiden or last
    name is present as well, the name is not the three names joined.
  */
  lemma DisplayNameIsNotConcatenation(first: string, maiden: string, last: string)
    ensures first != "" ==> DisplayName(first, maiden, last) == first
    ensures first != "" && (maiden != "" || last != "") ==> DisplayName(first, maiden, last) != first + maiden + last
  {
    if first != "" && (maiden != "" || last != "") {
      assert |first + maiden + last| > |first|;
    }
  }

  /** The values written to a user (the password is applied after the write). */
  datatype UserVals = UserVals(
    login: string,
    name: string,
    firstName: string,
    lastName: string,
    maidenName: string,
    email: string,
    profile: Profile,
    image: Image,
    integrationId: nat,
    dummyErpId: int,
    password: string)

  /** `prepare_dicts_from_dummy_erp_payload` for one remote user. */
  function PrepareUser(u: RemoteUser, integrationId: nat): (e: Entry<UserVals>)
    ensures e.remoteId == u.id && e.vals.dummyErpId == u.id && e.vals.integrationId == integrationId
    ensures e.vals.password == u.password && e.vals.login == u.username
    ensures e.vals.name == DisplayName(u.firstName, u.maidenName, u.lastName)
    ensures e.vals.image == (if u.image.Some? then Fetched(u.image.value) else NoImage)
  {
    Entry(u.id, UserVals(u.username, DisplayName(u.firstName, u.maidenName, u.lastName), u.firstName, u.lastName,
                         u.maidenName, u.email, u.profile,
                         if u.image.Some? then Fetched(u.image.value) else NoImage,
                         integrationId, u.id, u.password))
  }

  function PrepareUsers(payload: seq<RemoteUser>, integrationId: nat): (es: seq<Entry<UserVals>>)
    ensures |es| == |payload| && forall k :: 0 <= k < |payload| ==> es[k] == PrepareUser(payload[k], integrationId)
  {
    seq(|payload|, k requires 0 <= k < |payload| => PrepareUser(payload[k], integrationId))
  }

  /**
    `user.write(vals)` followed by `_change_password`: every prepared field is
    overwritten, the portal group is added to the user's groups, and the
    partner is kept.
  */
  function WriteUser(u: User, v: UserVals): (r: User)
    ensures r.groups == u.groups + {PortalGroup} && r.partnerId == u.partnerId
    ensures r.password == v.password && r.dummyErpId == v.dummyErpId && r.integrationId == Some(v.integrationId)
  {
    User(v.login, v.name, v.firstName, v.lastName, v.maidenName, v.email, v.profile, v.image,
         u.groups + {PortalGroup}, v.password, u.partnerId, Some(v.integrationId), v.dummyErpId)
  }

  /** `create(vals)` followed by `_change_password`; creating a user creates its partner. */
  function NewUser(v: UserVals, partnerId: nat): (r: User)
    ensures r.groups == {PortalGroup} && r.partnerId == partnerId
    ensures r.password == v.password && r.dummyErpId == v.dummyErpId && r.integrationId == Some(v.integrationId)
  {
    User(v.login, v.name, v.firstName, v.lastName, v.maidenName, v.email, v.profile, v.image,
         {PortalGroup}, v.password, partnerId, Some(v.integrationId), v.dummyErpId)
  }

  /**
    The create branch of the upsert for a run that started with `partnerBase`
    = partners - users: the user created at local id `i` gets the partner
    created with it.
  */
  function UserCreator(partnerBase: int): (UserVals, nat) -> User {
    (v: UserVals, i: nat) => NewUser(v, if partnerBase + i >= 0 then partnerBase + i else 0)
  }

  function UserRemoteId(u: User): int {
    u.dummyErpId
  }

  /**
    `create_or_update_from_dummy_erp_payload` on a database: only the users and
    the partners change, no user is removed, at most one is created per remote
    user, and each created user comes with exactly one new partner.
  */
  function ImportedUsers(db: DB, integrationId: nat, payload: seq<RemoteUser>): (r: DB)
    ensures r == db.(users := r.users, partnerCount := r.partnerCount)
    ensures |db.users| <= |r.users| <= |db.users| + |payload|
    ensures r.partnerCount - db.partnerCount == |r.users| - |db.users|
  {
    var es := PrepareUsers(payload, integrationId);
    var out := Upserted(db.users, UserRemoteId, es, WriteUser, UserCreator(db.partnerCount - |db.users|));
    db.(users := out, partnerCount := db.partnerCount + |out| - |db.users|)
  }

  /** Both branches of the upsert leave a user keyed by its remote id, in the portal group and bound to the integration. */
  lemma PreparedUsersConsistent(payload: seq<RemoteUser>, integrationId: nat, partnerBase: int)
    ensures KeyConsistent(UserRemoteId, PrepareUsers(payload, integrationId), WriteUser, UserCreator(partnerBase))
    ensures forall e | e in PrepareUsers(payload, integrationId) && e.remoteId != 0 ::
      (forall n: nat :: PortalGroup in UserCreator(partnerBase)(e.vals, n).groups &&
                       UserCreator(partnerBase)(e.vals, n).integrationId == Some(integrationId)) &&
      forall r :: PortalGroup in WriteUser(r, e.vals).groups && WriteUser(r, e.vals).integrationId == Some(integrationId)
  {
    var es := PrepareUsers(payload, integrationId);
    var create := UserCreator(partnerBase);
    forall e | e in es && e.remoteId != 0
      ensures forall n: nat :: (UserRemoteId(create(e.vals, n)) == e.remoteId &&
        PortalGroup in create(e.vals, n).groups && create(e.vals, n).integrationId == Some(integrationId))
      ensures forall r :: (UserRemoteId(WriteUser(r, e.vals)) == e.remoteId &&
        PortalGroup in WriteUser(r, e.vals).groups && WriteUser(r, e.vals).integrationId == Some(integrationId))
    {
      var k :| 0 <= k < |es| && es[k] == e;
      assert e.vals.dummyErpId == e.remoteId && e.vals.integrationId == integrationId;
      forall n: nat
        ensures UserRemoteId(create(e.vals, n)) == e.remoteId &&
          PortalGroup in create(e.vals, n).groups && create(e.vals, n).integrationId == Some(integrationId)
      {
        var pid: nat := if partnerBase + n >= 0 then partnerBase + n else 0;
        assert create(e.vals, n) == NewUser(e.vals, pid);
      }
    }
  }

  /**
    After a user import the partner count grows by exactly the number of users
    created, and for every remote user with a non-zero id, the user a lookup by
    that id finds is a portal user bound to the integration.
  */
  lemma {:induction false} ImportedUsersInSync(db: DB, integrationId: nat, payload: seq<RemoteUser>)
    ensures var once := ImportedUsers(db, integrationId, payload);
      && |db.users| <= |once.users| <= |db.users| + |payload|
      && once.partnerCount - db.partnerCount == |once.users| - |db.users|
    ensures var once := ImportedUsers(db, integrationId, payload);
      forall k :: 0 <= k < |payload| && payload[k].id != 0 ==>
        payload[k].id in Keys(once.users, UserRemoteId) &&
        var u := once.users[FirstIndex(Keys(once.users, UserRemoteId), payload[k].id).value];
        PortalGroup in u.groups && u.integrationId == Some(integrationId)
  {
    var es := PrepareUsers(payload, integrationId);
    var create := UserCreator(db.partnerCount - |db.users|);
    PreparedUsersConsistent(payload, integrationId, db.partnerCount - |db.users|);
    var p := (r: User) => PortalGroup in r.groups && r.integrationId == Some(integrationId);
    UpsertedFirstMatch(db.users, UserRemoteId, es, WriteUser, create, p);
    forall k | 0 <= k < |payload| && payload[k].id != 0
      ensures es[k] in es && es[k].remoteId == payload[k].id
    {
    }
  }

  /** A second import of the same payload creates no user and no partner. */
  lemma ImportedUsersTwice(db: DB, integrationId: nat, payload: seq<RemoteUser>)
    ensures var once := ImportedUsers(db, integrationId, payload);
      var twice := ImportedUsers(once, integrationId, payload);
      |twice.users| == |once.users| && twice.partnerCount == once.partnerCount
  {
    var es := PrepareUsers(payload, integrationId);
    var base := db.partnerCount - |db.users|;
    var once := ImportedUsers(db, integrationId, payload);
    assert once.partnerCount - |once.users| == base;
    PreparedUsersConsistent(payload, integrationId, base);
    UpsertedTwiceNoDuplicates(db.users, UserRemoteId, es, WriteUser, UserCreator(base));
  }

  /** One iteration of the user import loop. */
  method UpsertUser(store: Store, e: Entry<UserVals>)
    requires Valid(store.State()) && e.vals.integrationId in store.integrations
    modifies store
    ensures Valid(store.State())
    ensures store.users == UpsertStep(old(store.users), UserRemoteId, e, WriteUser,
                                      UserCreator(old(store.partnerCount) - |old(store.users)|))
    ensures store.partnerCount - |store.users| == old(store.partnerCount) - |old(store.users)|
    ensures store.State() == old(store.State()).(users := store.users, partnerCount := store.partnerCount)
  {
    if e.remoteId != 0 {
      var found := FirstIndex(Keys(store.users, UserRemoteId), e.remoteId);
      if found.Some? {
        store.users := store.users[found.value := WriteUser(store.users[found.value], e.vals)];
      } else {
        var partnerId := store.partnerCount;
        store.partnerCount := store.partnerCount + 1;
        store.users := store.users + [NewUser(e.vals, partnerId)];
      }
    }
  }

  /** `create_or_update_from_dummy_erp_payload` as a store operation. */
  method CreateOrUpdateFromPayload(store: Store, integrationId: nat, payload: seq<RemoteUser>)
    requires Valid(store.State()) && integrationId in store.integrations
    modifies store
    ensures Valid(store.State())
    ensures store.State() == ImportedUsers(old(store.State()), integrationId, payload)
  {
    var es := PrepareUsers(payload, integrationId);
    ghost var base := store.partnerCount - |store.users|;
    UpsertUsers(store, es, base);
  }

  /** The loop of the user import: upsert the prepared entries one by one. */
  method UpsertUsers(store: Store, es: seq<Entry<UserVals>>, ghost base: int)
    requires Valid(store.State()) && base == store.partnerCount - |store.users|
    requires forall k :: 0 <= k < |es| ==> es[k].vals.integrationId in store.integrations
    modifies store
    ensures Valid(store.State())
    ensures store.partnerCount - |store.users| == base
    ensures store.users == Upserted(old(store.users), UserRemoteId, es, WriteUser, UserCreator(base))
    ensures store.State() == old(store.State()).(users := store.users, partnerCount := store.partnerCount)
  {
    var i := 0;
    while i < |es|
      invariant 0 <= i <= |es|
      invariant Valid(store.State())
      invariant store.partnerCount - |store.users| == base
      invariant store.users == Upserted(old(store.users), UserRemoteId, es[..i], WriteUser, UserCreator(base))
      invariant store.State() == old(store.State()).(users := store.users, partnerCount := store.partnerCount)
    {
      assert es[..i + 1][..i] == es[..i];
      UpsertUser(store, es[i]);
      i := i + 1;
    }
    assert es[..i] == es;
  }

  // ------------------------------------------------------------ user carts

  /** The reply to the carts request: status and the `carts` list, if the key is present. */
  datatype CartsReply = CartsListed(status: int, carts: Option<seq<SaleOrder.RemoteCart>>) | CartsRaised

  /** Whether `get_dummy_erp_user_carts` does anything for this user. */
  predicate CartsGuard(u: User) {
    u.integrationId.Some? && u.dummyErpId != 0
  }

  /**
    `get_dummy_erp_user_carts` on a database. An empty base URL makes the
    request raise, like a transport failure.
  */
  function UserCartsOutcome(db: DB, user: nat, reply: CartsReply): (r: DB)
    requires Valid(db) && user < |db.users|
    ensures !CartsGuard(db.users[user]) ==> r == db
    ensures CartsGuard(db.users[user]) ==>
      var iid := db.users[user].integrationId.value;
      && |r.log| == |db.log| + 1 && r.log[..|db.log|] == db.log && r.log[|db.log|].integrationId == iid
      && (r.log[|db.log|].severity == Info <==> |db.integrations[iid].baseUrl| > 0 && reply.CartsListed? && IsSuccess(reply.status) && reply.carts.Some?)
    ensures r.orders != db.orders ==> CartsGuard(db.users[user]) && r.log[|db.log|].severity == Info
    ensures CartsGuard(db.users[user]) && r.log[|db.log|].severity == Info ==>
      var u := db.users[user];
      r.orders == SaleOrder.ImportedCarts(db.orders, db.products, u.partnerId, u.integrationId.value, reply.carts.value)
    ensures r == db.(orders := r.orders, log := r.log)
  {
    var u := db.users[user];
    if !CartsGuard(u) then db
    else
      var iid := u.integrationId.value;
      var ok := |db.integrations[iid].baseUrl| > 0 && reply.CartsListed? && IsSuccess(reply.status) && reply.carts.Some?;
      if ok then
        var carts := reply.carts.value;
        var orders := if |carts| > 0 then SaleOrder.ImportedCarts(db.orders, db.products, u.partnerId, iid, carts) else db.orders;
        db.(orders := orders, log := db.log + [LogEntry(iid, "Get User Carts", Info)])
      else
        db.(log := db.log + [LogEntry(iid, "Import User Carts", Error)])
  }

  /**
    `get_dummy_erp_user_carts` as a store operation. `call` is the request
    handed to the transport, `None` when none is sent.
  */
  method GetUserCarts(store: Store, user: nat, reply: CartsReply) returns (call: Option<HttpCall<()>>)
    requires Valid(store.State()) && user < |store.users|
    modifies store
    ensures Valid(store.State())
    ensures store.State() == UserCartsOutcome(old(store.State()), user, reply)
    ensures call.Some? <==> (CartsGuard(old(store.users)[user]) &&
      |old(store.integrations)[old(store.users)[user].integrationId.value].baseUrl| > 0)
    ensures call.Some? ==> (call.value.verb == GET &&
      call.value.url == RequestUrl(old(store.integrations)[old(store.users)[user].integrationId.value].baseUrl,
                                   UserCartsPath(old(store.users)[user].dummyErpId)))
  {
    call := None;
    var u := store.users[user];
    if u.integrationId.Some? && u.dummyErpId != 0 {
      var iid := u.integrationId.value;
      var baseUrl := store.integrations[iid].baseUrl;
      if |baseUrl| == 0 {
        store.log := store.log + [LogEntry(iid, "Import User Carts", Error)];
      } else {
        call := Some(PrepareCall(baseUrl, Request(GET, UserCartsPath(u.dummyErpId), ()), None));
        if reply.CartsListed? && IsSuccess(reply.status) && reply.carts.Some? {
          var carts := reply.carts.value;
          if |carts| > 0 {
            SaleOrder.CreateFromPayload(store, user, iid, carts);
          }
          store.log := store.log + [LogEntry(iid, "Get User Carts", Info)];
        } else {
          store.log := store.log + [LogEntry(iid, "Import User Carts", Error)];
        }
      }
    }
  }
}
