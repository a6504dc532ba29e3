/**
  The host database as the connector sees it: the fields the connector adds to
  or reads from each model, and one `Store` object holding every table.
  Products, categories, users and orders are sequences whose positions are the
  local record ids; scheduled jobs and integrations, which can be deleted, are
  maps from id to row. Many2one fields hold the id of the referenced row.
*/
module Schema {
  import opened Common

  /** The `type` selection of a log entry. */
  datatype Severity = Info | Warning | Error

  /** One integration log row; its free-text details are not modelled. */
  datatype LogEntry = LogEntry(integrationId: nat, subject: string, severity: Severity)

  /** An `image_1920` value: nothing, or the bytes downloaded from a URL. */
  datatype Image = NoImage | Fetched(url: string)

  datatype Product = Product(
    name: string,
    descriptionSale: Option<string>,
    listPrice: real,
    discountPercentage: real,
    rating: real,
    brand: Option<string>,
    stock: real,
    categId: nat,
    detailedType: string,
    taxes: set<nat>,
    image: Image,
    websitePublished: bool,
    integrationId: Option<nat>,
    dummyErpId: int,          // 0 = not yet known to the remote side
    updateToDummyErp: bool)   // the "needs export" flag

  /** The descriptive user fields copied one to one from the remote record. */
  datatype Profile = Profile(
    age: int, gender: string, birthDate: string, bloodGroup: string,
    height: real, weight: real, eyeColor: string, university: string)

  datatype User = User(
    login: string,
    name: string,
    firstName: string,
    lastName: string,
    maidenName: string,
    email: string,
    profile: Profile,
    image: Image,
    groups: set<string>,
    password: string,
    partnerId: nat,
    integrationId: Option<nat>,
    dummyErpId: int)

  /** A sale order line; `productId` is the local id of the product. */
  datatype Line = Line(productId: nat, quantity: real, priceUnit: real, discount: real)

  datatype Order = Order(
    partnerId: nat,
    invoicePartnerId: nat,
    lines: seq<Line>,
    integrationId: Option<nat>,
    dummyErpId: int,
    updateToDummyErp: bool)

  /** The four scheduled operations of an integration. */
  datatype Job = ImportProducts | ImportUsers | ExportCarts | ExportProducts

  datatype Cron = Cron(
    name: string,
    code: string,
    intervalNumber: nat,
    intervalType: string,
    active: bool,
    integrationId: Option<nat>)

  datatype Integration = Integration(
    name: string,
    active: bool,
    baseUrl: string,
    autoImportProduct: bool,
    autoImportUser: bool,
    autoExportCart: bool,
    autoExportProduct: bool,
    importProductCron: nat,
    importUserCron: nat,
    exportCartCron: nat,
    exportProductCron: nat,
    defaultTaxes: set<nat>)
  {
    /** The automation toggle of a job. */
    function Toggle(job: Job): bool {
      match job
      case ImportProducts => autoImportProduct
      case ImportUsers => autoImportUser
      case ExportCarts => autoExportCart
      case ExportProducts => autoExportProduct
    }

    /** The scheduled job a toggle drives. */
    function CronOf(job: Job): nat {
      match job
      case ImportProducts => importProductCron
      case ImportUsers => importUserCron
      case ExportCarts => exportCartCron
      case ExportProducts => exportProductCron
    }
  }

  /** A snapshot of every table. */
  datatype DB = DB(
    products: seq<Product>,
    categories: seq<string>,
    users: seq<User>,
    partnerCount: nat,
    orders: seq<Order>,
    crons: map<nat, Cron>,
    nextCronId: nat,
    integrations: map<nat, Integration>,
    nextIntegrationId: nat,
    log: seq<LogEntry>)

  /** Referential integrity the database guarantees. */
  ghost predicate Valid(db: DB) {
    && |db.categories| > 0
    && (forall i :: 0 <= i < |db.products| ==> db.products[i].categId < |db.categories|)
    && (forall o, l :: 0 <= o < |db.orders| && 0 <= l < |db.orders[o].lines| ==>
          db.orders[o].lines[l].productId < |db.products|)
    && (forall i :: 0 <= i < |db.users| ==> db.users[i].partnerId < db.partnerCount)
    && (forall i :: 0 <= i < |db.users| && db.users[i].integrationId.Some? ==>
          db.users[i].integrationId.value in db.integrations)
    && (forall c :: c in db.crons ==> c < db.nextCronId)
    && (forall c :: c in db.crons && db.crons[c].integrationId.Some? ==>
          db.crons[c].integrationId.value in db.integrations)
    && (forall i :: i in db.integrations ==> i < db.nextIntegrationId)
  }

  /** The partner of each user, in user order. */
  function PartnerIds(users: seq<User>): (ps: seq<nat>)
    ensures |ps| == |users| && forall i :: 0 <= i < |users| ==> ps[i] == users[i].partnerId
  {
    seq(|users|, i requires 0 <= i < |users| => users[i].partnerId)
  }

  /** `partner.user_ids[0]`: the first user of a partner, if it has any. */
  function FirstUserOf(users: seq<User>, partnerId: nat): (u: Option<nat>)
    ensures u.Some? ==> u.value < |users| && users[u.value].partnerId == partnerId
    ensures u.Some? ==> forall i :: 0 <= i < u.value ==> users[i].partnerId != partnerId
    ensures u.None? ==> forall i :: 0 <= i < |users| ==> users[i].partnerId != partnerId
  {
    var r := FirstIndex(PartnerIds(users), partnerId);
    if r.Some? then
      assert forall i :: 0 <= i < r.value ==> PartnerIds(users)[..r.value][i] == users[i].partnerId;
      r
    else
      assert forall i :: 0 <= i < |users| ==> PartnerIds(users)[i] in PartnerIds(users);
      r
  }

  /** The database: every table the connector reads or writes. */
  class Store {
    var products: seq<Product>
    var categories: seq<string>
    var users: seq<User>
    var partnerCount: nat
    var orders: seq<Order>
    var crons: map<nat, Cron>
    var nextCronId: nat
    var integrations: map<nat, Integration>
    var nextIntegrationId: nat
    var log: seq<LogEntry>

    function State(): DB
      reads this
    {
      DB(products, categories, users, partnerCount, orders, crons, nextCronId,
         integrations, nextIntegrationId, log)
    }

    /** A fresh database holds only the root product category. */
    constructor ()
      ensures Valid(State())
      ensures State() == DB([], ["All"], [], 0, [], map[], 0, map[], 0, [])
    {
      products, categories, users, partnerCount, orders := [], ["All"], [], 0, [];
      crons, nextCronId, integrations, nextIntegrationId, log := map[], 0, map[], 0, [];
    }
  }
}
