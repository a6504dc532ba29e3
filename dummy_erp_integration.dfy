/**
  The integration record: its four scheduled jobs and their lifecycle, the
  operation log, the connection test, and the scheduled import and export
  runs that drive the product, user and cart modules.
*/
module DummyErpIntegration {
  import opened Common
  import opened Schema
  import opened ApiClient
  import opened Sync
  import ProductTemplate
  import ResUsers
  import SaleOrder

  // ------------------------------------------------------------ log

  /** `log_operation`: append one entry for the integration. */
  method LogOperation(store: Store, integrationId: nat, subject: string, severity: Severity)
    requires Valid(store.State())
    modifies store
    ensures Valid(store.State())
    ensures store.State() == old(store.State()).(log := old(store.log) + [LogEntry(integrationId, subject, severity)])
  {
    store.log := store.log + [LogEntry(integrationId, subject, severity)];
  }

  // ------------------------------------------------------------ jobs

  const AllJobs: seq<Job> := [ImportProducts, ImportUsers, ExportCarts, ExportProducts]

  function JobLabel(job: Job): string {
    match job
    case ImportProducts => "Import Products"
    case ImportUsers => "Import Users"
    case ExportCarts => "Export Carts"
    case ExportProducts => "Export Products"
  }

  function JobMethod(job: Job): string {
    match job
    case ImportProducts => "import_dummy_products"
    case ImportUsers => "import_dummy_users"
    case ExportCarts => "export_dummy_carts"
    case ExportProducts => "export_dummy_products"
  }

  const CronNamePrefix := "Dummy ERP Integration "
  const CronNameSep := ": "
  const CodePrefix := "model."
  const CodeOpen := "("
  const CodeClose := ")"

  /** The job a provisioner creates: imports every 20 minutes, exports every 2, inactive, linked. */
  function JobCron(job: Job, integrationName: string, integrationId: nat): (c: Cron)
    ensures !c.active && c.integrationId == Some(integrationId) && c.intervalType == "minutes"
    ensures c.intervalNumber == (if job == ImportProducts || job == ImportUsers then 20 else 2)
    ensures c.code == CodePrefix + JobMethod(job) + CodeOpen + NatToString(integrationId) + CodeClose
  {
    Cron(CronNamePrefix + integrationName + CronNameSep + JobLabel(job),
         CodePrefix + JobMethod(job) + CodeOpen + NatToString(integrationId) + CodeClose,
         if job == ImportProducts || job == ImportUsers then 20 else 2,
         "minutes", false, Some(integrationId))
  }

  /** The integration with the job reference of `job` set to `cronId`. */
  function WithCron(i: Integration, job: Job, cronId: nat): (r: Integration)
    ensures r.CronOf(job) == cronId && forall j :: j != job ==> r.CronOf(j) == i.CronOf(j)
    ensures forall j :: r.Toggle(j) == i.Toggle(j)
    ensures r.name == i.name && r.active == i.active && r.baseUrl == i.baseUrl && r.defaultTaxes == i.defaultTaxes
  {
    match job
    case ImportProducts => i.(importProductCron := cronId)
    case ImportUsers => i.(importUserCron := cronId)
    case ExportCarts => i.(exportCartCron := cronId)
    case ExportProducts => i.(exportProductCron := cronId)
  }

  /** The jobs of an integration are four different records. */
  predicate DistinctJobs(i: Integration) {
    forall j1: Job, j2: Job :: j1 != j2 ==> i.CronOf(j1) != i.CronOf(j2)
  }

  /** Every existing job of the integration is active exactly when its toggle is set. */
  predicate Mirrored(db: DB, integrationId: nat)
    requires integrationId in db.integrations
  {
    var i := db.integrations[integrationId];
    forall j: Job :: i.CronOf(j) in db.crons ==> db.crons[i.CronOf(j)].active == i.Toggle(j)
  }

  // ------------------------------------------------------------ create

  /** The values of a `create` or `write` call; `None` means the key is absent. */
  datatype IntegrationVals = IntegrationVals(
    name: Option<string>,
    active: Option<bool>,
    baseUrl: Option<string>,
    autoImportProduct: Option<bool>,
    autoImportUser: Option<bool>,
    autoExportCart: Option<bool>,
    autoExportProduct: Option<bool>,
    defaultTaxes: Option<set<nat>>)
  {
    function ToggleVal(job: Job): Option<bool> {
      match job
      case ImportProducts => autoImportProduct
      case ImportUsers => autoImportUser
      case ExportCarts => autoExportCart
      case ExportProducts => autoExportProduct
    }
  }

  const DefaultBaseUrl := "https://dummyjson.com"

  /** The row the plain `create` stores (the job references are set by the provisioners). */
  function NewIntegration(vals: IntegrationVals): (r: Integration)
    ensures forall j :: r.Toggle(j) == vals.ToggleVal(j).GetOr(false)
    ensures r.baseUrl == vals.baseUrl.GetOr(DefaultBaseUrl) && r.active == vals.active.GetOr(false)
  {
    Integration(vals.name.GetOr(""), vals.active.GetOr(false), vals.baseUrl.GetOr(DefaultBaseUrl),
                vals.autoImportProduct.GetOr(false), vals.autoImportUser.GetOr(false),
                vals.autoExportCart.GetOr(false), vals.autoExportProduct.GetOr(false),
                0, 0, 0, 0, vals.defaultTaxes.GetOr({}))
  }

  /** One provisioner: a new job for `job`, referenced from the integration. */
  function Provision(db: DB, integrationId: nat, job: Job): (r: DB)
    requires integrationId in db.integrations
    ensures r.integrations.Keys == db.integrations.Keys
  {
    var c := db.nextCronId;
    var i := db.integrations[integrationId];
    db.(crons := db.crons[c := JobCron(job, i.name, integrationId)], nextCronId := c + 1,
        integrations := db.integrations[integrationId := WithCron(i, job, c)])
  }

  /** The new integration's row once its four jobs, numbered from `c`, are provisioned. */
  function ProvisionedIntegration(vals: IntegrationVals, c: nat): (i: Integration)
    ensures i.CronOf(ImportProducts) == c && i.CronOf(ImportUsers) == c + 1
    ensures i.CronOf(ExportCarts) == c + 2 && i.CronOf(ExportProducts) == c + 3
    ensures forall j: Job :: i.Toggle(j) == vals.ToggleVal(j).GetOr(false)
  {
    WithCron(WithCron(WithCron(WithCron(NewIntegration(vals), ImportProducts, c), ImportUsers, c + 1), ExportCarts, c + 2), ExportProducts, c + 3)
  }

  /** The job table once the four jobs of integration `id` are provisioned from id `c` on. */
  function ProvisionedCrons(crons: map<nat, Cron>, c: nat, name: string, id: nat): map<nat, Cron> {
    crons[c := JobCron(ImportProducts, name, id)][c + 1 := JobCron(ImportUsers, name, id)]
         [c + 2 := JobCron(ExportCarts, name, id)][c + 3 := JobCron(ExportProducts, name, id)]
  }

  /**
    The database after `create(vals)`: the integration under the next free id
    and its four jobs under the next four job ids; nothing else changes.
  */
  function Provisioned(db: DB, vals: IntegrationVals): (r: DB)
    ensures r == db.(integrations := r.integrations, crons := r.crons,
                     nextIntegrationId := db.nextIntegrationId + 1, nextCronId := db.nextCronId + 4)
    ensures r.integrations.Keys == db.integrations.Keys + {db.nextIntegrationId}
    ensures r.crons.Keys == db.crons.Keys + {db.nextCronId, db.nextCronId + 1, db.nextCronId + 2, db.nextCronId + 3}
  {
    var id := db.nextIntegrationId;
    var c := db.nextCronId;
    db.(integrations := db.integrations[id := ProvisionedIntegration(vals, c)], nextIntegrationId := id + 1,
        crons := ProvisionedCrons(db.crons, c, vals.name.GetOr(""), id), nextCronId := c + 4)
  }

  /** The plain `create`: the new row, without job references yet. */
  function Created(db: DB, vals: IntegrationVals): DB {
    db.(integrations := db.integrations[db.nextIntegrationId := NewIntegration(vals)], nextIntegrationId := db.nextIntegrationId + 1)
  }

  /** The four provisioners, in the order the source runs them. */
  function ProvisionAll(d: DB, id: nat): DB
    requires id in d.integrations
  {
    Provision(Provision(Provision(Provision(d, id, ImportProducts), id, ImportUsers), id, ExportCarts), id, ExportProducts)
  }


  /** What one provisioner changes: the new job, the next job id and the integration's reference. */
  lemma ProvisionStep(d: DB, id: nat, job: Job)
    requires id in d.integrations
    ensures var d' := Provision(d, id, job);
      && d'.integrations == d.integrations[id := WithCron(d.integrations[id], job, d.nextCronId)]
      && d'.crons == d.crons[d.nextCronId := JobCron(job, d.integrations[id].name, id)]
      && d'.nextCronId == d.nextCronId + 1
      && d'.nextIntegrationId == d.nextIntegrationId
  {
  }

  /** Two provisioners in a row reference two consecutive new jobs. */
  lemma ProvisionTwice(d: DB, id: nat, j1: Job, j2: Job)
    requires id in d.integrations
    ensures var d' := Provision(Provision(d, id, j1), id, j2);
      && d'.integrations == d.integrations[id := WithCron(WithCron(d.integrations[id], j1, d.nextCronId), j2, d.nextCronId + 1)]
      && d'.nextCronId == d.nextCronId + 2
  {
    ProvisionStep(d, id, j1);
    ProvisionStep(Provision(d, id, j1), id, j2);
  }

  /** The four provisioners reference four consecutive new jobs. */
  lemma ProvisionFour(d: DB, id: nat)
    requires id in d.integrations
    ensures var d' := ProvisionAll(d, id);
      && d'.integrations == d.integrations[id := WithCron(WithCron(WithCron(WithCron(d.integrations[id],
           ImportProducts, d.nextCronId), ImportUsers, d.nextCronId + 1), ExportCarts, d.nextCronId + 2), ExportProducts, d.nextCronId + 3)]
      && d'.nextCronId == d.nextCronId + 4
  {
    ProvisionTwice(d, id, ImportProducts, ImportUsers);
    ProvisionTwice(Provision(Provision(d, id, ImportProducts), id, ImportUsers), id, ExportCarts, ExportProducts);
  }

  /** The provisioners number the jobs from the next free id and reference them from the integration. */
  lemma ProvisionChainIntegration(db: DB, vals: IntegrationVals)
    ensures var id := db.nextIntegrationId;
      var d := ProvisionAll(Created(db, vals), id);
      && d.integrations == db.integrations[id := ProvisionedIntegration(vals, db.nextCronId)]
      && d.nextCronId == db.nextCronId + 4
  {
    ProvisionFour(Created(db, vals), db.nextIntegrationId);
  }

  /** The provisioners create the four jobs, each named after the integration. */
  lemma ProvisionChainCrons(db: DB, vals: IntegrationVals)
    ensures ProvisionAll(Created(db, vals), db.nextIntegrationId).crons ==
      ProvisionedCrons(db.crons, db.nextCronId, vals.name.GetOr(""), db.nextIntegrationId)
  {
    var id := db.nextIntegrationId;
    var d0 := Created(db, vals);
    var d1 := Provision(d0, id, ImportProducts);
    var d2 := Provision(d1, id, ImportUsers);
    var d3 := Provision(d2, id, ExportCarts);
    ProvisionStep(d0, id, ImportProducts);
    ProvisionStep(d1, id, ImportUsers);
    ProvisionStep(d2, id, ExportCarts);
    ProvisionStep(d3, id, ExportProducts);
  }

  /** The plain `create` followed by the four provisioners, run in order, builds `Provisioned`. */
  function CreatedAndProvisioned(db: DB, vals: IntegrationVals): (r: DB)
    ensures r == Provisioned(db, vals)
  {
    ProvisionChainIntegration(db, vals);
    ProvisionChainCrons(db, vals);
    ProvisionAll(Created(db, vals), db.nextIntegrationId)
  }

  /** A provisioner keeps referential integrity. */
  lemma ProvisionValid(db: DB, integrationId: nat, job: Job)
    requires Valid(db) && integrationId in db.integrations
    ensures Valid(Provision(db, integrationId, job))
  {
  }

  /** Creating an integration keeps referential integrity. */
  lemma ProvisionedValid(db: DB, vals: IntegrationVals)
    requires Valid(db)
    ensures Valid(Provisioned(db, vals))
  {
    var id := db.nextIntegrationId;
    ProvisionedCronsLinked(db.crons, db.integrations[id := ProvisionedIntegration(vals, db.nextCronId)],
                           db.nextCronId, vals.name.GetOr(""), id);
  }

  /** The job table after a `create` stays numbered below the next job id and linked to known integrations. */
  lemma ProvisionedCronsLinked(crons: map<nat, Cron>, integrations: map<nat, Integration>, c: nat, name: string, id: nat)
    requires forall k :: k in crons ==> k < c
    requires forall k :: k in crons && crons[k].integrationId.Some? ==> crons[k].integrationId.value in integrations
    requires id in integrations
    ensures var crons' := ProvisionedCrons(crons, c, name, id);
      && (forall k :: k in crons' ==> k < c + 4)
      && (forall k :: k in crons' && crons'[k].integrationId.Some? ==> crons'[k].integrationId.value in integrations)
  {
  }

  /** Creating an integration changes no other job or integration. */
  lemma ProvisionedKeeps(db: DB, vals: IntegrationVals)
    requires Valid(db)
    ensures var db' := Provisioned(db, vals);
      && db.nextIntegrationId !in db.integrations
      && db'.integrations.Keys == db.integrations.Keys + {db.nextIntegrationId}
      && (forall c :: c in db.crons ==> db'.crons[c] == db.crons[c])
      && (forall k :: k in db.integrations ==> db'.integrations[k] == db.integrations[k])
  {
    ProvisionedCronsKeep(db.crons, db.nextCronId, vals.name.GetOr(""), db.nextIntegrationId);
  }

  /** The four new jobs sit above every existing one, so no existing job changes. */
  lemma ProvisionedCronsKeep(crons: map<nat, Cron>, c: nat, name: string, id: nat)
    requires forall k :: k in crons ==> k < c
    ensures forall k :: k in crons ==> ProvisionedCrons(crons, c, name, id)[k] == crons[k]
  {
  }

  /** The position of a job's record among the four a `create` provisions. */
  function JobOffset(job: Job): (k: nat)
    ensures k < 4
  {
    match job
    case ImportProducts => 0
    case ImportUsers => 1
    case ExportCarts => 2
    case ExportProducts => 3
  }

  /** Each toggle of a provisioned integration references its own record, at its offset from `c`. */
  lemma ProvisionedCronOf(vals: IntegrationVals, c: nat)
    ensures forall j: Job :: ProvisionedIntegration(vals, c).CronOf(j) == c + JobOffset(j)
  {
  }

  /** The four records a `create` adds, at `c` up to `c + 3`, one per job. */
  lemma ProvisionedCronsAt(crons: map<nat, Cron>, c: nat, name: string, id: nat)
    ensures ProvisionedCrons(crons, c, name, id).Keys == crons.Keys + {c, c + 1, c + 2, c + 3}
    ensures forall j: Job :: ProvisionedCrons(crons, c, name, id)[c + JobOffset(j)] == JobCron(j, name, id)
  {
  }

  /** The jobs of a provisioned integration, stated on its row and on the job table alone. */
  lemma ProvisionedJobsAt(crons: map<nat, Cron>, vals: IntegrationVals, c: nat, id: nat)
    requires forall k :: k in crons ==> k < c
    ensures var i := ProvisionedIntegration(vals, c);
      var crons' := ProvisionedCrons(crons, c, vals.name.GetOr(""), id);
      && crons'.Keys == crons.Keys + (set j: Job :: i.CronOf(j))
      && DistinctJobs(i)
      && (forall j: Job :: i.CronOf(j) !in crons && crons'[i.CronOf(j)] == JobCron(j, vals.name.GetOr(""), id))
  {
    var i := ProvisionedIntegration(vals, c);
    ProvisionedCronOf(vals, c);
    ProvisionedCronsAt(crons, c, vals.name.GetOr(""), id);
    assert i.CronOf(ImportProducts) == c && i.CronOf(ImportUsers) == c + 1;
    assert i.CronOf(ExportCarts) == c + 2 && i.CronOf(ExportProducts) == c + 3;
    assert (set j: Job :: i.CronOf(j)) == {c, c + 1, c + 2, c + 3};
  }

  /**
    Creating an integration provisions four new, different, inactive jobs
    linked back to it, each toggle's reference naming its own job, whose code
    calls the job's operation with the integration's id.
  */
  lemma ProvisionedJobs(db: DB, vals: IntegrationVals)
    requires Valid(db)
    ensures var db' := Provisioned(db, vals);
      var id := db.nextIntegrationId;
      id in db'.integrations &&
      var i := db'.integrations[id];
      && db'.crons.Keys == db.crons.Keys + (set j: Job :: i.CronOf(j))
      && DistinctJobs(i)
      && (forall j: Job :: i.CronOf(j) !in db.crons && db'.crons[i.CronOf(j)] == JobCron(j, vals.name.GetOr(""), id))
      && (forall j: Job :: i.Toggle(j) == vals.ToggleVal(j).GetOr(false))
  {
    ProvisionedJobsAt(db.crons, vals, db.nextCronId, db.nextIntegrationId);
  }

  /**
    The jobs mirror the toggles right after creation exactly when no toggle
    was set: a toggle passed as true at creation leaves its job inactive.
  */
  lemma ProvisionedMirroredIff(db: DB, vals: IntegrationVals)
    requires Valid(db)
    ensures Provisioned(db, vals).nextIntegrationId - 1 in Provisioned(db, vals).integrations
    ensures Mirrored(Provisioned(db, vals), db.nextIntegrationId) <==> forall j: Job :: !vals.ToggleVal(j).GetOr(false)
  {
    ProvisionedJobs(db, vals);
    var db' := Provisioned(db, vals);
    var i := db'.integrations[db.nextIntegrationId];
    if Mirrored(db', db.nextIntegrationId) {
      forall j: Job ensures !vals.ToggleVal(j).GetOr(false) {
        assert db'.crons[i.CronOf(j)].active == i.Toggle(j);
      }
    }
  }

  /** One `_create_dummy_erp_*` provisioner. */
  method ProvisionJob(store: Store, integrationId: nat, job: Job)
    requires Valid(store.State()) && integrationId in store.integrations
    modifies store
    ensures Valid(store.State())
    ensures store.State() == Provision(old(store.State()), integrationId, job)
  {
    ghost var d := store.State();
    ProvisionValid(d, integrationId, job);
    var i := store.integrations[integrationId];
    var cronId := store.nextCronId;
    store.crons := store.crons[cronId := JobCron(job, i.name, integrationId).(integrationId := None)];
    store.nextCronId := cronId + 1;
    store.integrations := store.integrations[integrationId := WithCron(i, job, cronId)];
    store.crons := store.crons[cronId := store.crons[cronId].(integrationId := Some(integrationId))];
    assert store.crons == d.crons[cronId := JobCron(job, i.name, integrationId)];
  }

  /** `create(vals)`: store the integration, then run the four provisioners. */
  method Create(store: Store, vals: IntegrationVals) returns (integrationId: nat)
    requires Valid(store.State()) && vals.name.Some?
    modifies store
    ensures Valid(store.State())
    ensures integrationId == old(store.nextIntegrationId)
    ensures store.State() == Provisioned(old(store.State()), vals)
  {
    integrationId := store.nextIntegrationId;
    store.integrations := store.integrations[integrationId := NewIntegration(vals)];
    store.nextIntegrationId := integrationId + 1;
    ProvisionJob(store, integrationId, ImportProducts);
    ProvisionJob(store, integrationId, ImportUsers);
    ProvisionJob(store, integrationId, ExportCarts);
    ProvisionJob(store, integrationId, ExportProducts);
    assert store.State() == CreatedAndProvisioned(old(store.State()), vals);
  }

  // ------------------------------------------------------------ write, toggle_active

  /** `job.active = b` on a job reference; an empty reference makes the assignment a no-op. */
  function SetActive(crons: map<nat, Cron>, cronId: nat, b: bool): (r: map<nat, Cron>)
    ensures r.Keys == crons.Keys
    ensures cronId in crons ==> r[cronId] == crons[cronId].(active := b)
    ensures forall c :: c in crons && c != cronId ==> r[c] == crons[c]
  {
    if cronId in crons then crons[cronId := crons[cronId].(active := b)] else crons
  }

  /** The plain write of the integration's own fields. */
  function ApplyIntegrationVals(i: Integration, v: IntegrationVals): (r: Integration)
    ensures forall j :: r.Toggle(j) == v.ToggleVal(j).GetOr(i.Toggle(j)) && r.CronOf(j) == i.CronOf(j)
  {
    i.(name := v.name.GetOr(i.name), active := v.active.GetOr(i.active), baseUrl := v.baseUrl.GetOr(i.baseUrl),
       autoImportProduct := v.autoImportProduct.GetOr(i.autoImportProduct),
       autoImportUser := v.autoImportUser.GetOr(i.autoImportUser),
       autoExportCart := v.autoExportCart.GetOr(i.autoExportCart),
       autoExportProduct := v.autoExportProduct.GetOr(i.autoExportProduct),
       defaultTaxes := v.defaultTaxes.GetOr(i.defaultTaxes))
  }

  /** The follow-up of one toggle key in a write: set its job when the key is present. */
  function WriteToggle(crons: map<nat, Cron>, i: Integration, v: IntegrationVals, job: Job): (r: map<nat, Cron>)
    ensures r.Keys == crons.Keys
    ensures forall c :: c in crons ==> r[c] == crons[c].(active := r[c].active)
  {
    if v.ToggleVal(job).Some? then SetActive(crons, i.CronOf(job), v.ToggleVal(job).value) else crons
  }

  /** The jobs after a write: each toggle present in `vals` sets its job, in field order. */
  function WrittenCrons(crons: map<nat, Cron>, i: Integration, v: IntegrationVals): (r: map<nat, Cron>)
    ensures r.Keys == crons.Keys
    ensures forall c :: c in crons ==> r[c] == crons[c].(active := r[c].active)
    ensures forall c :: c in crons && (forall j: Job :: c != i.CronOf(j)) ==> r[c] == crons[c]
  {
    WriteToggle(WriteToggle(WriteToggle(WriteToggle(crons, i, v, ImportProducts), i, v, ImportUsers), i, v, ExportCarts),
                i, v, ExportProducts)
  }

  /**
    `write(vals)` on one integration: its own fields are written, the jobs
    change only in their `active` flag, and no other integration changes.
  */
  function IntegrationWritten(db: DB, integrationId: nat, v: IntegrationVals): (r: DB)
    requires integrationId in db.integrations
    ensures r == db.(integrations := r.integrations, crons := r.crons)
    ensures r.integrations.Keys == db.integrations.Keys && r.crons.Keys == db.crons.Keys
    ensures forall k :: k in db.integrations && k != integrationId ==> r.integrations[k] == db.integrations[k]
    ensures forall j: Job :: r.integrations[integrationId].Toggle(j) == v.ToggleVal(j).GetOr(db.integrations[integrationId].Toggle(j))
    ensures forall c :: c in db.crons ==> r.crons[c] == db.crons[c].(active := r.crons[c].active)
  {
    var i := ApplyIntegrationVals(db.integrations[integrationId], v);
    db.(integrations := db.integrations[integrationId := i], crons := WrittenCrons(db.crons, i, v))
  }

  /** One toggle step of a write, seen from one job. */
  lemma WriteToggleAt(crons: map<nat, Cron>, i: Integration, v: IntegrationVals, job: Job, c: nat)
    requires c in crons
    ensures WriteToggle(crons, i, v, job)[c] ==
      if v.ToggleVal(job).Some? && c == i.CronOf(job) then crons[c].(active := v.ToggleVal(job).value) else crons[c]
  {
  }

  /** The job `c` after the four toggle steps of a write. */
  lemma WrittenCronAt(crons: map<nat, Cron>, i: Integration, v: IntegrationVals, c: nat)
    requires c in crons
    ensures var r := WrittenCrons(crons, i, v);
      c in r && r[c] == (
        if c == i.CronOf(ExportProducts) && v.autoExportProduct.Some? then crons[c].(active := v.autoExportProduct.value)
        else if c == i.CronOf(ExportCarts) && v.autoExportCart.Some? then crons[c].(active := v.autoExportCart.value)
        else if c == i.CronOf(ImportUsers) && v.autoImportUser.Some? then crons[c].(active := v.autoImportUser.value)
        else if c == i.CronOf(ImportProducts) && v.autoImportProduct.Some? then crons[c].(active := v.autoImportProduct.value)
        else crons[c])
  {
    var c1 := WriteToggle(crons, i, v, ImportProducts);
    var c2 := WriteToggle(c1, i, v, ImportUsers);
    var c3 := WriteToggle(c2, i, v, ExportCarts);
    WriteToggleAt(crons, i, v, ImportProducts, c);
    WriteToggleAt(c1, i, v, ImportUsers, c);
    WriteToggleAt(c2, i, v, ExportCarts, c);
    WriteToggleAt(c3, i, v, ExportProducts, c);
  }

  /**
    A write sets the job of every toggle present in `vals` to that toggle's
    value and leaves the jobs of absent toggles alone.
  */
  lemma WrittenJobs(db: DB, integrationId: nat, v: IntegrationVals)
    requires integrationId in db.integrations && DistinctJobs(db.integrations[integrationId])
    ensures var db' := IntegrationWritten(db, integrationId, v);
      var i := db.integrations[integrationId];
      && db'.crons.Keys == db.crons.Keys
      && (forall j: Job :: i.CronOf(j) in db.crons && v.ToggleVal(j).Some? ==>
            db'.crons[i.CronOf(j)] == db.crons[i.CronOf(j)].(active := v.ToggleVal(j).value))
      && (forall j: Job :: i.CronOf(j) in db.crons && v.ToggleVal(j).None? ==>
            db'.crons[i.CronOf(j)] == db.crons[i.CronOf(j)])
  {
    var i := db.integrations[integrationId];
    var w := ApplyIntegrationVals(i, v);
    forall j: Job | i.CronOf(j) in db.crons
      ensures WrittenCrons(db.crons, w, v)[i.CronOf(j)] ==
        if v.ToggleVal(j).Some? then db.crons[i.CronOf(j)].(active := v.ToggleVal(j).value) else db.crons[i.CronOf(j)]
    {
      WrittenCronAt(db.crons, w, v, i.CronOf(j));
      assert i.CronOf(j) != i.CronOf(ImportProducts) ==> j != ImportProducts;
      assert i.CronOf(j) != i.CronOf(ImportUsers) ==> j != ImportUsers;
      assert i.CronOf(j) != i.CronOf(ExportCarts) ==> j != ExportCarts;
      match j
      case ImportProducts =>
      case ImportUsers =>
      case ExportCarts =>
      case ExportProducts =>
    }
  }

  /** A write changes no job outside the integration's four. */
  lemma WriteOthersUntouched(db: DB, integrationId: nat, v: IntegrationVals, c: nat)
    requires integrationId in db.integrations && c in db.crons
    requires forall j: Job :: c != db.integrations[integrationId].CronOf(j)
    ensures IntegrationWritten(db, integrationId, v).crons[c] == db.crons[c]
  {
    var i := db.integrations[integrationId];
    WrittenCronAt(db.crons, ApplyIntegrationVals(i, v), v, c);
    assert c != i.CronOf(ImportProducts) && c != i.CronOf(ImportUsers);
    assert c != i.CronOf(ExportCarts) && c != i.CronOf(ExportProducts);
  }

  /** So a write keeps jobs mirroring their toggles. */
  lemma WriteKeepsMirrored(db: DB, integrationId: nat, v: IntegrationVals)
    requires integrationId in db.integrations && DistinctJobs(db.integrations[integrationId])
    requires Mirrored(db, integrationId)
    ensures Mirrored(IntegrationWritten(db, integrationId, v), integrationId)
  {
    WrittenJobs(db, integrationId, v);
    var i := db.integrations[integrationId];
    var db' := IntegrationWritten(db, integrationId, v);
    forall j: Job | db'.integrations[integrationId].CronOf(j) in db'.crons
      ensures db'.crons[i.CronOf(j)].active == db'.integrations[integrationId].Toggle(j)
    {
      assert db.crons[i.CronOf(j)].active == i.Toggle(j);
    }
  }

  /** Writing the integration keeps the database's referential integrity. */
  lemma WrittenValid(db: DB, integrationId: nat, v: IntegrationVals)
    requires Valid(db) && integrationId in db.integrations
    ensures Valid(IntegrationWritten(db, integrationId, v))
  {
    var db' := IntegrationWritten(db, integrationId, v);
    assert db'.integrations.Keys == db.integrations.Keys;
    assert db'.crons.Keys == db.crons.Keys;
  }

  /** `write(vals)` on the integration. */
  method Write(store: Store, integrationId: nat, v: IntegrationVals)
    requires Valid(store.State()) && integrationId in store.integrations
    modifies store
    ensures Valid(store.State())
    ensures store.State() == IntegrationWritten(old(store.State()), integrationId, v)
  {
    WrittenValid(store.State(), integrationId, v);
    var i := ApplyIntegrationVals(store.integrations[integrationId], v);
    store.integrations := store.integrations[integrationId := i];
    store.crons := WriteToggle(store.crons, i, v, ImportProducts);
    store.crons := WriteToggle(store.crons, i, v, ImportUsers);
    store.crons := WriteToggle(store.crons, i, v, ExportCarts);
    store.crons := WriteToggle(store.crons, i, v, ExportProducts);
  }

  function AllToggles(b: bool): (v: IntegrationVals)
    ensures forall j :: v.ToggleVal(j) == Some(b)
  {
    IntegrationVals(None, None, None, Some(b), Some(b), Some(b), Some(b), None)
  }

  /** `toggle_active`: flip `active`, then write it into all four toggles. */
  function ToggledActive(db: DB, integrationId: nat): (r: DB)
    requires integrationId in db.integrations
    ensures r == db.(integrations := r.integrations, crons := r.crons)
    ensures r.integrations.Keys == db.integrations.Keys && r.crons.Keys == db.crons.Keys
    ensures forall k :: k in db.integrations && k != integrationId ==> r.integrations[k] == db.integrations[k]
    ensures r.integrations[integrationId].active == !db.integrations[integrationId].active
    ensures forall c :: c in db.crons ==> r.crons[c] == db.crons[c].(active := r.crons[c].active)
  {
    var i := db.integrations[integrationId];
    var flipped := db.(integrations := db.integrations[integrationId := i.(active := !i.active)]);
    IntegrationWritten(flipped, integrationId, AllToggles(!i.active))
  }

  /** Every job touched by a write of all four toggles to `b` ends with `active == b`. */
  lemma AllTogglesSet(crons: map<nat, Cron>, i: Integration, b: bool)
    ensures var r := WrittenCrons(crons, i, AllToggles(b));
      forall j: Job :: i.CronOf(j) in crons ==> r[i.CronOf(j)].active == b
  {
    var v := AllToggles(b);
    var c1 := WriteToggle(crons, i, v, ImportProducts);
    var c2 := WriteToggle(c1, i, v, ImportUsers);
    var c3 := WriteToggle(c2, i, v, ExportCarts);
    var c4 := WriteToggle(c3, i, v, ExportProducts);
    forall j: Job | i.CronOf(j) in crons ensures c4[i.CronOf(j)].active == b {
      match j
      case ImportProducts =>
      case ImportUsers =>
      case ExportCarts =>
      case ExportProducts =>
    }
  }

  /**
    After `toggle_active` every toggle, and every existing job of the
    integration, equals the integration's new `active` value, whatever the
    jobs were before and even when two toggles share a job.
  */
  lemma ToggledActiveFacts(db: DB, integrationId: nat)
    requires integrationId in db.integrations
    ensures var db' := ToggledActive(db, integrationId);
      var i := db'.integrations[integrationId];
      && i.active == !db.integrations[integrationId].active
      && (forall j: Job :: i.Toggle(j) == i.active)
      && Mirrored(db', integrationId)
  {
    var i := db.integrations[integrationId];
    var w := ApplyIntegrationVals(i.(active := !i.active), AllToggles(!i.active));
    AllTogglesSet(db.crons, w, !i.active);
  }

  method ToggleActive(store: Store, integrationId: nat)
    requires Valid(store.State()) && integrationId in store.integrations
    modifies store
    ensures Valid(store.State())
    ensures store.State() == ToggledActive(old(store.State()), integrationId)
  {
    var i := store.integrations[integrationId];
    store.integrations := store.integrations[integrationId := i.(active := !i.active)];
    Write(store, integrationId, AllToggles(store.integrations[integrationId].active));
  }

  // ------------------------------------------------------------ delete

  /** The entries of a log that do not belong to one integration, in their order. */
  function Kept(log: seq<LogEntry>, integrationId: nat): seq<LogEntry>
    decreases |log|
  {
    if log == [] then []
    else
      var n := |log| - 1;
      Kept(log[..n], integrationId) + (if log[n].integrationId == integrationId then [] else [log[n]])
  }

  /** Kept drops exactly the entries of the integration, each other entry as often as it occurred. */
  lemma {:induction false} KeptContents(log: seq<LogEntry>, integrationId: nat)
    ensures forall e :: e in Kept(log, integrationId) <==> e in log && e.integrationId != integrationId
    ensures forall e :: multiset(Kept(log, integrationId))[e] == if e.integrationId == integrationId then 0 else multiset(log)[e]
    decreases |log|
  {
    if log != [] {
      var n := |log| - 1;
      KeptContents(log[..n], integrationId);
      assert log == log[..n] + [log[n]];
    }
  }

  /** The log without the entries of one integration. */
  function LogWithout(log: seq<LogEntry>, integrationId: nat): (r: seq<LogEntry>)
    ensures forall e :: e in r <==> e in log && e.integrationId != integrationId
    ensures forall e :: multiset(r)[e] == if e.integrationId == integrationId then 0 else multiset(log)[e]
  {
    KeptContents(log, integrationId);
    Kept(log, integrationId)
  }

  /** Dropping the entries of one integration commutes with joining logs, so the kept entries stay in order. */
  lemma {:induction false} LogWithoutAppend(a: seq<LogEntry>, b: seq<LogEntry>, integrationId: nat)
    ensures LogWithout(a + b, integrationId) == LogWithout(a, integrationId) + LogWithout(b, integrationId)
  {
    KeptAppend(a, b, integrationId);
  }

  lemma {:induction false} KeptAppend(a: seq<LogEntry>, b: seq<LogEntry>, integrationId: nat)
    ensures Kept(a + b, integrationId) == Kept(a, integrationId) + Kept(b, integrationId)
    decreases |b|
  {
    if b == [] {
      assert a + b == a;
    } else {
      var m := |b| - 1;
      var ab := a + b;
      assert ab[|ab| - 1] == b[m];
      assert ab[..|ab| - 1] == a + b[..m];
      KeptAppend(a, b[..m], integrationId);
    }
  }

  /** Whether a product, user or order still references the integration (`ondelete="restrict"`). */
  predicate Referenced(db: DB, integrationId: nat) {
    || (exists k :: 0 <= k < |db.products| && db.products[k].integrationId == Some(integrationId))
    || (exists k :: 0 <= k < |db.users| && db.users[k].integrationId == Some(integrationId))
    || (exists k :: 0 <= k < |db.orders| && db.orders[k].integrationId == Some(integrationId))
  }

  /**
    Deleting an integration: refused while a record references it; otherwise
    its jobs and its log entries go with it (`ondelete="cascade"`), not
    through the job deletion guard.
  */
  method Unlink(store: Store, integrationId: nat) returns (refused: bool)
    requires Valid(store.State()) && integrationId in store.integrations
    modifies store
    ensures Valid(store.State())
    ensures refused <==> Referenced(old(store.State()), integrationId)
    ensures refused ==> store.State() == old(store.State())
    ensures !refused ==> store.State() == old(store.State()).(
      integrations := old(store.integrations) - {integrationId},
      crons := map c | c in old(store.crons) && old(store.crons)[c].integrationId != Some(integrationId) :: old(store.crons)[c],
      log := LogWithout(old(store.log), integrationId))
    ensures !refused ==> forall c :: c in store.crons ==> store.crons[c].integrationId != Some(integrationId)
  {
    refused := Referenced(store.State(), integrationId);
    if !refused {
      store.crons := map c | c in store.crons && store.crons[c].integrationId != Some(integrationId) :: store.crons[c];
      store.log := LogWithout(store.log, integrationId);
      store.integrations := store.integrations - {integrationId};
    }
  }

  // ------------------------------------------------------------ test connection

  /**
    The reply to the connection test: the status code, the JSON `status` value
    (`None` when the key is missing; "" reads as false) and the JSON error
    description (`None` when missing); or an exception.
  */
  datatype TestReply = TestResponse(status: int, statusField: Option<string>, description: Option<string>) | TestRaised

  /** Connected: success notice. Refused and Failed: `ValidationError`. Silent: returns nothing. */
  datatype TestOutcome = Connected | Refused | Failed | Silent

  /** The outcome of `test_connection` and the severities it logs, in order. */
  function TestConnectionResult(baseUrl: string, reply: TestReply): (r: (TestOutcome, seq<Severity>))
    ensures r.0 == Connected <==> r.1 == [Info]
    ensures r.0 == Refused <==> r.1 == [Error, Error]
    ensures r.0 == Failed <==> r.1 == [Error]
    ensures r.0 == Silent <==> r.1 == []
    ensures r.0 == Connected <==>
      |baseUrl| > 0 && reply.TestResponse? && IsSuccess(reply.status) && reply.statusField.Some? && reply.statusField.value != ""
    ensures r.0 == Refused ==> reply.TestResponse? && reply.statusField == Some("error") && reply.description.Some?
  {
    if |baseUrl| == 0 || reply.TestRaised? then (Failed, [Error])
    else if IsSuccess(reply.status) && reply.statusField.Some? && reply.statusField.value != "" then (Connected, [Info])
    else if reply.statusField.None? then (Failed, [Error])
    else if reply.statusField.value == "error" then
      if reply.description.Some? then (Refused, [Error, Error]) else (Failed, [Error])
    else (Silent, [])
  }

  const TestSubject := "Test Connection"

  function TestLog(integrationId: nat, severities: seq<Severity>): (entries: seq<LogEntry>)
    ensures |entries| == |severities|
    ensures forall k :: 0 <= k < |entries| ==> entries[k] == LogEntry(integrationId, TestSubject, severities[k])
  {
    seq(|severities|, k requires 0 <= k < |severities| => LogEntry(integrationId, TestSubject, severities[k]))
  }

  /** `test_connection` as a store operation. */
  method TestConnection(store: Store, integrationId: nat, reply: TestReply) returns (outcome: TestOutcome)
    requires Valid(store.State()) && integrationId in store.integrations
    modifies store
    ensures Valid(store.State())
    ensures var r := TestConnectionResult(old(store.integrations)[integrationId].baseUrl, reply);
      outcome == r.0 && store.State() == old(store.State()).(log := old(store.log) + TestLog(integrationId, r.1))
  {
    var baseUrl := store.integrations[integrationId].baseUrl;
    if |baseUrl| == 0 || reply.TestRaised? {
      outcome := Failed;
    } else if IsSuccess(reply.status) && reply.statusField.Some? && reply.statusField.value != "" {
      LogOperation(store, integrationId, TestSubject, Info);
      return Connected;
    } else if reply.statusField.None? {
      outcome := Failed;
    } else if reply.statusField.value == "error" {
      if reply.description.Some? {
        LogOperation(store, integrationId, TestSubject, Error);
        outcome := Refused;
      } else {
        outcome := Failed;
      }
    } else {
      return Silent;
    }
    // the handler logs every exception raised above
    LogOperation(store, integrationId, TestSubject, Error);
  }

  // ------------------------------------------------------------ scheduled imports

  /**
    The reply to a list request: the status and the list under its key
    (`None` when the key is missing), or an exception.
  */
  datatype ListReply<T> = Listed(status: int, items: Option<seq<T>>) | ListRaised

  /** The guard of an import run: a 2xx reply carrying a non-empty list. */
  predicate Importable<T>(reply: ListReply<T>) {
    reply.Listed? && IsSuccess(reply.status) && reply.items.Some? && |reply.items.value| > 0
  }

  const ImportProductsSubject := "Import Products"
  const ImportUsersSubject := "Import Users"

  /**
    `import_dummy_products` on a database. An empty base URL makes the request
    raise. Products and categories change only in a run that logs success;
    a run whose reply is not importable changes nothing at all.
  */
  function ImportProductsOutcome(db: DB, integrationId: nat, reply: ListReply<ProductTemplate.RemoteProduct>): (r: DB)
    requires Valid(db) && integrationId in db.integrations
    ensures var baseUrl := db.integrations[integrationId].baseUrl;
      r.log == db.log <==> |baseUrl| > 0 && !reply.ListRaised? && !Importable(reply)
    ensures r.log != db.log ==>
      && |r.log| == |db.log| + 1
      && r.log == db.log + [LogEntry(integrationId, ImportProductsSubject, r.log[|db.log|].severity)]
      && (r.log[|db.log|].severity == Info <==> |db.integrations[integrationId].baseUrl| > 0 && Importable(reply))
      && (r.log[|db.log|].severity != Info ==> r.log[|db.log|].severity == Error)
    ensures !(|db.integrations[integrationId].baseUrl| > 0 && Importable(reply)) ==> r == db.(log := r.log)
  {
    if |db.integrations[integrationId].baseUrl| == 0 || reply.ListRaised? then
      db.(log := db.log + [LogEntry(integrationId, ImportProductsSubject, Error)])
    else if Importable(reply) then
      ProductTemplate.ImportedProducts(db, integrationId, reply.items.value).(
        log := db.log + [LogEntry(integrationId, ImportProductsSubject, Info)])
    else db
  }

  /**
    After a successful product import every remote product with an id is
    present locally, linked to the integration with its default taxes and
    clean; and the same reply imported again creates no product.
  */
  lemma ImportProductsSynced(db: DB, integrationId: nat, reply: ListReply<ProductTemplate.RemoteProduct>)
    requires Valid(db) && integrationId in db.integrations
    requires |db.integrations[integrationId].baseUrl| > 0 && Importable(reply)
    ensures var once := ImportProductsOutcome(db, integrationId, reply);
      var payload := reply.items.value;
      && once.log == db.log + [LogEntry(integrationId, ImportProductsSubject, Info)]
      && (forall k :: 0 <= k < |payload| && payload[k].id != 0 ==>
            payload[k].id in Keys(once.products, ProductTemplate.RemoteIdOf) &&
            ProductTemplate.InSync(once.products[FirstIndex(Keys(once.products, ProductTemplate.RemoteIdOf), payload[k].id).value],
                                   integrationId, db.integrations[integrationId].defaultTaxes))
      && |ProductTemplate.ImportedProducts(once, integrationId, payload).products| == |once.products|
  {
    var payload := reply.items.value;
    ProductTemplate.ImportedProductsInSync(db, integrationId, payload);
    var once := ProductTemplate.ImportedProducts(db, integrationId, payload);
    var once' := once.(log := db.log + [LogEntry(integrationId, ImportProductsSubject, Info)]);
    assert ProductTemplate.ImportedProducts(once', integrationId, payload).products
        == ProductTemplate.ImportedProducts(once, integrationId, payload).products;
  }

  /** `import_dummy_products` as a store operation; `call` is the request sent, if any. */
  method ImportDummyProducts(store: Store, integrationId: nat, reply: ListReply<ProductTemplate.RemoteProduct>)
    returns (call: Option<HttpCall<()>>)
    requires Valid(store.State()) && integrationId in store.integrations
    modifies store
    ensures Valid(store.State())
    ensures store.State() == ImportProductsOutcome(old(store.State()), integrationId, reply)
    ensures var baseUrl := old(store.integrations)[integrationId].baseUrl;
      call.Some? <==> |baseUrl| > 0
    ensures call.Some? ==> (call.value.verb == GET &&
      call.value.url == RequestUrl(old(store.integrations)[integrationId].baseUrl, GetProductsPath))
  {
    var baseUrl := store.integrations[integrationId].baseUrl;
    call := None;
    if |baseUrl| == 0 || reply.ListRaised? {
      if |baseUrl| > 0 {
        call := Some(PrepareCall(baseUrl, Request(GET, GetProductsPath, ()), None));
      }
      LogOperation(store, integrationId, ImportProductsSubject, Error);
      return;
    }
    call := Some(PrepareCall(baseUrl, Request(GET, GetProductsPath, ()), None));
    if Importable(reply) {
      ProductTemplate.CreateOrUpdateFromPayload(store, integrationId, reply.items.value);
      LogOperation(store, integrationId, ImportProductsSubject, Info);
    }
  }

  /**
    `import_dummy_users` on a database: the same guard and log as the product
    import, around the user upsert.
  */
  function ImportUsersOutcome(db: DB, integrationId: nat, reply: ListReply<ResUsers.RemoteUser>): (r: DB)
    requires Valid(db) && integrationId in db.integrations
    ensures var baseUrl := db.integrations[integrationId].baseUrl;
      r.log == db.log <==> |baseUrl| > 0 && !reply.ListRaised? && !Importable(reply)
    ensures r.log != db.log ==>
      && |r.log| == |db.log| + 1
      && r.log == db.log + [LogEntry(integrationId, ImportUsersSubject, r.log[|db.log|].severity)]
      && (r.log[|db.log|].severity == Info <==> |db.integrations[integrationId].baseUrl| > 0 && Importable(reply))
      && (r.log[|db.log|].severity != Info ==> r.log[|db.log|].severity == Error)
    ensures !(|db.integrations[integrationId].baseUrl| > 0 && Importable(reply)) ==> r == db.(log := r.log)
  {
    if |db.integrations[integrationId].baseUrl| == 0 || reply.ListRaised? then
      db.(log := db.log + [LogEntry(integrationId, ImportUsersSubject, Error)])
    else if Importable(reply) then
      ResUsers.ImportedUsers(db, integrationId, reply.items.value).(
        log := db.log + [LogEntry(integrationId, ImportUsersSubject, Info)])
    else db
  }

  /**
    After a successful user import every remote user with an id is present
    locally as a portal user linked to the integration, and each user created
    got a partner of its own.
  */
  lemma ImportUsersSynced(db: DB, integrationId: nat, reply: ListReply<ResUsers.RemoteUser>)
    requires Valid(db) && integrationId in db.integrations
    requires |db.integrations[integrationId].baseUrl| > 0 && Importable(reply)
    ensures var once := ImportUsersOutcome(db, integrationId, reply);
      var payload := reply.items.value;
      && once.log == db.log + [LogEntry(integrationId, ImportUsersSubject, Info)]
      && once.partnerCount - db.partnerCount == |once.users| - |db.users|
      && (forall k :: 0 <= k < |payload| && payload[k].id != 0 ==>
            payload[k].id in Keys(once.users, ResUsers.UserRemoteId) &&
            var u := once.users[FirstIndex(Keys(once.users, ResUsers.UserRemoteId), payload[k].id).value];
            ResUsers.PortalGroup in u.groups && u.integrationId == Some(integrationId))
  {
    ResUsers.ImportedUsersInSync(db, integrationId, reply.items.value);
  }

  /** `import_dummy_users` as a store operation; `call` is the request sent, if any. */
  method ImportDummyUsers(store: Store, integrationId: nat, reply: ListReply<ResUsers.RemoteUser>)
    returns (call: Option<HttpCall<()>>)
    requires Valid(store.State()) && integrationId in store.integrations
    modifies store
    ensures Valid(store.State())
    ensures store.State() == ImportUsersOutcome(old(store.State()), integrationId, reply)
    ensures var baseUrl := old(store.integrations)[integrationId].baseUrl;
      call.Some? <==> |baseUrl| > 0
    ensures call.Some? ==> (call.value.verb == GET &&
      call.value.url == RequestUrl(old(store.integrations)[integrationId].baseUrl, GetUsersPath))
  {
    var baseUrl := store.integrations[integrationId].baseUrl;
    call := None;
    if |baseUrl| == 0 || reply.ListRaised? {
      if |baseUrl| > 0 {
        call := Some(PrepareCall(baseUrl, Request(GET, GetUsersPath, ()), None));
      }
      LogOperation(store, integrationId, ImportUsersSubject, Error);
      return;
    }
    call := Some(PrepareCall(baseUrl, Request(GET, GetUsersPath, ()), None));
    if Importable(reply) {
      ResUsers.CreateOrUpdateFromPayload(store, integrationId, reply.items.value);
      LogOperation(store, integrationId, ImportUsersSubject, Info);
    }
  }

  // ------------------------------------------------------------ scheduled exports

  /**
    The remote ids written back by an export run of `n` requests: none when
    the base URL is empty (the first request raises), otherwise those of the
    leading accepted replies.
  */
  function RunIds(baseUrl: string, replies: seq<Reply>, n: nat): (ids: seq<int>)
    ensures |ids| <= n
    ensures |baseUrl| == 0 ==> ids == []
  {
    if |baseUrl| > 0 then AcceptedIds(replies, n) else []
  }

  /** A run that stopped at request `k` writes back the same ids however many requests were queued. */
  lemma RunIdsStopped(baseUrl: string, replies: seq<Reply>, k: nat, n: nat)
    requires k <= n && |RunIds(baseUrl, replies, k)| == k
    requires |baseUrl| == 0 || !Accepted(ReplyAt(replies, k))
    ensures RunIds(baseUrl, replies, n) == RunIds(baseUrl, replies, k)
  {
    if |baseUrl| > 0 {
      AcceptedIdsStopped(replies, k, n);
    }
  }

  /**
    The request for one record: a PUT to the record's own path under the
    update path when it has a remote id, else a POST to the add path.
  */
  function ExportRequest<B>(remoteId: int, updatePath: string, addPath: string, body: B): (r: Request<B>)
    ensures r.body == body
    ensures r.verb == PUT <==> remoteId != 0
    ensures r.verb == POST <==> remoteId == 0
    ensures remoteId == 0 ==> r.path == addPath
    ensures remoteId != 0 ==> r.path == updatePath + "/" + IntToString(remoteId)
  {
    if remoteId != 0 then Request(PUT, updatePath + "/" + IntToString(remoteId), body)
    else Request(POST, addPath, body)
  }

  /** The product request: PUT to the product's own path when it has a remote id, POST to the add path otherwise. */
  function ProductRequest(remoteId: int, payload: ProductTemplate.ProductPayload): (r: Request<ProductTemplate.ProductPayload>)
    ensures r.body == payload
    ensures r.verb == PUT <==> remoteId != 0
    ensures r.verb == POST <==> remoteId == 0
    ensures r.path == AddProductPath <==> remoteId == 0
    ensures remoteId != 0 ==> r.path == UpdateProductPath + "/" + IntToString(remoteId)
  {
    var r := ExportRequest(remoteId, UpdateProductPath, AddProductPath, payload);
    assert remoteId != 0 ==> r.path[|UpdateProductPath| + 1] == IntToString(remoteId)[0];
    r
  }

  /** The values written back to an exported product, under the suppression context. */
  const CommitVals := (remoteId: int) => ProductTemplate.NoVals.(dummyErpId := Some(remoteId), updateToDummyErp := Some(false))

  /** The write-back of one exported product: its remote id stored and its flag cleared, nothing else. */
  function CommitProduct(p: Product, remoteId: int): (r: Product)
    ensures r.dummyErpId == remoteId && !r.updateToDummyErp
    ensures r.(dummyErpId := p.dummyErpId, updateToDummyErp := p.updateToDummyErp) == p
  {
    ProductTemplate.AfterWrite(p, CommitVals(remoteId), true)
  }

  const ExportProductsSubject := "Update products in dummy ERP"

  /**
    `export_dummy_products` on a database: the dirty products are sent in id
    order, the accepted ones before the first rejection are written back, and
    one entry is logged, `Info` exactly when every dirty product was accepted.
  */
  function ExportProductsOutcome(db: DB, integrationId: nat, replies: seq<Reply>): (r: DB)
    requires Valid(db) && integrationId in db.integrations
    ensures r == db.(products := r.products, log := r.log)
    ensures |r.products| == |db.products|
    ensures |r.log| == |db.log| + 1 && r.log[..|db.log|] == db.log
    ensures r.log[|db.log|].integrationId == integrationId && r.log[|db.log|].subject == ExportProductsSubject
    ensures var n := |ProductTemplate.DirtyProducts(db.products)|;
      r.log[|db.log|].severity == Info <==>
        n == 0 || (|db.integrations[integrationId].baseUrl| > 0 && forall k :: 0 <= k < n ==> Accepted(ReplyAt(replies, k)))
  {
    var batch := ProductTemplate.DirtyProducts(db.products);
    var ids := RunIds(db.integrations[integrationId].baseUrl, replies, |batch|);
    db.(products := Exported(db.products, batch, ids, CommitProduct),
        log := db.log + [LogEntry(integrationId, ExportProductsSubject, if |ids| == |batch| then Info else Error)])
  }

  /** The number of requests a run sends: up to and including the first rejected one. */
  function SentCount(baseUrl: string, replies: seq<Reply>, n: nat): (sent: nat)
    ensures sent <= n
    ensures |baseUrl| == 0 ==> sent == 0
    ensures |baseUrl| > 0 ==> forall k :: 0 <= k < sent - 1 ==> Accepted(ReplyAt(replies, k))
    ensures |baseUrl| > 0 && sent < n ==> sent > 0 && !Accepted(ReplyAt(replies, sent - 1))
    ensures |baseUrl| > 0 && n > 0 ==> sent > 0
  {
    var ids := RunIds(baseUrl, replies, n);
    if |baseUrl| == 0 then 0 else if |ids| < n then |ids| + 1 else n
  }

  /** The calls that send the first `n` dirty products, in order. */
  function ProductCalls(db: DB, baseUrl: string, payloads: seq<ProductTemplate.ProductPayload>, batch: seq<nat>, n: nat)
    : (calls: seq<HttpCall<ProductTemplate.ProductPayload>>)
    requires n <= |batch| && |payloads| == |batch| && (n == 0 || |baseUrl| > 0)
    requires forall i :: 0 <= i < |batch| ==> batch[i] < |db.products|
    ensures |calls| == n
    ensures forall k :: 0 <= k < n ==>
      calls[k] == PrepareCall(baseUrl, ProductRequest(db.products[batch[k]].dummyErpId, payloads[k]), None)
    decreases n
  {
    if n == 0 then []
    else ProductCalls(db, baseUrl, payloads, batch, n - 1) +
         [PrepareCall(baseUrl, ProductRequest(db.products[batch[n - 1]].dummyErpId, payloads[n - 1]), None)]
  }

  /** The calls of a product export run, in order: every dirty product up to the first rejected one. */
  function ExportProductsCalls(db: DB, integrationId: nat, webBaseUrl: string, replies: seq<Reply>)
    : (calls: seq<HttpCall<ProductTemplate.ProductPayload>>)
    requires Valid(db) && integrationId in db.integrations
    ensures var batch := ProductTemplate.DirtyProducts(db.products);
      |calls| == SentCount(db.integrations[integrationId].baseUrl, replies, |batch|)
  {
    var batch := ProductTemplate.DirtyProducts(db.products);
    var baseUrl := db.integrations[integrationId].baseUrl;
    ProductCalls(db, baseUrl, ProductTemplate.ProductsToUpdate(db, webBaseUrl), batch, SentCount(baseUrl, replies, |batch|))
  }

  /** A product accepted before the first rejection carries the id the remote side returned, and is clean. */
  lemma ExportedProductCommitted(db: DB, integrationId: nat, replies: seq<Reply>, k: nat)
    requires Valid(db) && integrationId in db.integrations
    requires k < |RunIds(db.integrations[integrationId].baseUrl, replies, |ProductTemplate.DirtyProducts(db.products)|)|
    ensures var batch := ProductTemplate.DirtyProducts(db.products);
      var p' := ExportProductsOutcome(db, integrationId, replies).products[batch[k]];
      && Accepted(ReplyAt(replies, k))
      && p'.dummyErpId == ReplyAt(replies, k).returnedId.value && !p'.updateToDummyErp
      && p'.(dummyErpId := db.products[batch[k]].dummyErpId, updateToDummyErp := true) == db.products[batch[k]]
  {
    var batch := ProductTemplate.DirtyProducts(db.products);
    var ids := RunIds(db.integrations[integrationId].baseUrl, replies, |batch|);
    ExportedCommitted(db.products, batch, ids, CommitProduct, k);
    assert batch[k] in batch;
  }

  /** A product the run did not reach (clean, or at or after the rejection) is unchanged. */
  lemma ExportedProductUntouched(db: DB, integrationId: nat, replies: seq<Reply>, j: nat)
    requires Valid(db) && integrationId in db.integrations && j < |db.products|
    requires var batch := ProductTemplate.DirtyProducts(db.products);
      j !in batch[..|RunIds(db.integrations[integrationId].baseUrl, replies, |batch|)|]
    ensures ExportProductsOutcome(db, integrationId, replies).products[j] == db.products[j]
  {
    var batch := ProductTemplate.DirtyProducts(db.products);
    ExportedUntouched(db.products, batch, RunIds(db.integrations[integrationId].baseUrl, replies, |batch|), CommitProduct, j);
  }

  /**
    The run logs `Info` exactly when it leaves no product dirty; after an
    `Error` run the rejected product is still dirty, so the next run retries it.
  */
  lemma ExportProductsLogsSuccess(db: DB, integrationId: nat, replies: seq<Reply>)
    requires Valid(db) && integrationId in db.integrations
    ensures var db' := ExportProductsOutcome(db, integrationId, replies);
      && |db'.log| == |db.log| + 1 && db'.log[..|db.log|] == db.log
      && (db'.log[|db.log|].severity == Info <==> forall j :: 0 <= j < |db'.products| ==> !db'.products[j].updateToDummyErp)
  {
    var db' := ExportProductsOutcome(db, integrationId, replies);
    var batch := ProductTemplate.DirtyProducts(db.products);
    var ids := RunIds(db.integrations[integrationId].baseUrl, replies, |batch|);
    assert db'.log[..|db.log|] == db.log;
    if |ids| == |batch| {
      forall j | 0 <= j < |db'.products| ensures !db'.products[j].updateToDummyErp {
        if db.products[j].updateToDummyErp {
          var k :| 0 <= k < |batch| && batch[k] == j;
          ExportedProductCommitted(db, integrationId, replies, k);
        } else {
          assert j !in batch;
          ExportedProductUntouched(db, integrationId, replies, j);
        }
      }
    } else {
      var j := batch[|ids|];
      assert j !in batch[..|ids|];
      ExportedProductUntouched(db, integrationId, replies, j);
      assert db'.products[j].updateToDummyErp;
    }
  }

  /**
    One iteration of the product export: send the `k`-th dirty product and,
    when the reply is accepted, write the returned id back.
  */
  method SendProduct(store: Store, ghost db: DB, batch: seq<nat>, payloads: seq<ProductTemplate.ProductPayload>,
                     baseUrl: string, replies: seq<Reply>, k: nat, ghost ids: seq<int>,
                     calls: seq<HttpCall<ProductTemplate.ProductPayload>>)
    returns (calls': seq<HttpCall<ProductTemplate.ProductPayload>>, accepted: bool, ghost ids': seq<int>)
    requires Valid(store.State()) && |baseUrl| > 0 && Increasing(batch) && k < |batch| == |payloads|
    requires forall i :: 0 <= i < |batch| ==> batch[i] < |db.products|
    requires ids == RunIds(baseUrl, replies, k) && |ids| == k
    requires calls == ProductCalls(db, baseUrl, payloads, batch, k)
    requires store.State() == db.(products := Exported(db.products, batch, ids, CommitProduct))
    modifies store
    ensures Valid(store.State())
    ensures calls' == ProductCalls(db, baseUrl, payloads, batch, k + 1)
    ensures accepted <==> Accepted(ReplyAt(replies, k))
    ensures accepted ==> (ids' == RunIds(baseUrl, replies, k + 1) && |ids'| == k + 1 &&
      store.State() == db.(products := Exported(db.products, batch, ids', CommitProduct)))
    ensures !accepted ==> store.State() == old(store.State()) && RunIds(baseUrl, replies, |batch|) == RunIds(baseUrl, replies, k)
    ensures !accepted ==> SentCount(baseUrl, replies, |batch|) == k + 1
  {
    var id := batch[k];
    ExportedUntouched(db.products, batch, ids, CommitProduct, id);
    var call := PrepareCall(baseUrl, ProductRequest(store.products[id].dummyErpId, payloads[k]), None);
    calls' := calls + [call];
    assert calls' == ProductCalls(db, baseUrl, payloads, batch, k + 1);
    var reply := ReplyAt(replies, k);
    accepted := Accepted(reply);
    if accepted {
      var remoteId := reply.returnedId.value;
      assert RunIds(baseUrl, replies, k + 1) == ids + [remoteId];
      assert (ids + [remoteId])[..k] == ids;
      ids' := ids + [remoteId];
      ProductTemplate.Write(store, id, CommitVals(remoteId), true);
    } else {
      RunIdsStopped(baseUrl, replies, k, |batch|);
      assert SentCount(baseUrl, replies, |batch|) == k + 1;
      ids' := ids;
    }
  }

  /**
    The sending loop of `export_dummy_products`: send the payloads of the
    dirty products in order until one is rejected, writing back each accepted one.
  */
  method SendProductBatch(store: Store, ghost db: DB, batch: seq<nat>, payloads: seq<ProductTemplate.ProductPayload>,
                          baseUrl: string, replies: seq<Reply>)
    returns (calls: seq<HttpCall<ProductTemplate.ProductPayload>>, failed: bool)
    requires Valid(store.State()) && store.State() == db && batch == ProductTemplate.DirtyProducts(db.products)
    requires |payloads| == |batch| && |baseUrl| > 0
    modifies store
    ensures Valid(store.State())
    ensures store.State() == db.(products := Exported(db.products, batch, RunIds(baseUrl, replies, |batch|), CommitProduct))
    ensures failed <==> |RunIds(baseUrl, replies, |batch|)| < |batch|
    ensures calls == ProductCalls(db, baseUrl, payloads, batch, SentCount(baseUrl, replies, |batch|))
  {
    assert forall i :: 0 <= i < |batch| ==> batch[i] < |db.products|;
    assert RunIds(baseUrl, replies, 0) == [];
    calls := [];
    failed := false;
    var k := 0;
    ghost var ids: seq<int> := [];
    while k < |batch|
      invariant 0 <= k <= |batch|
      invariant Valid(store.State())
      invariant ids == RunIds(baseUrl, replies, k) && |ids| == k
      invariant store.State() == db.(products := Exported(db.products, batch, ids, CommitProduct))
      invariant calls == ProductCalls(db, baseUrl, payloads, batch, k)
    {
      var accepted;
      ghost var ids';
      calls, accepted, ids' := SendProduct(store, db, batch, payloads, baseUrl, replies, k, ids, calls);
      if !accepted {
        failed := true;
        break;
      }
      k := k + 1;
      ids := ids';
    }
    if !failed {
      assert SentCount(baseUrl, replies, |batch|) == |batch|;
    }
  }

  /** `export_dummy_products` as a store operation: the calls it sends, in order. */
  method ExportDummyProducts(store: Store, integrationId: nat, webBaseUrl: string, replies: seq<Reply>)
    returns (calls: seq<HttpCall<ProductTemplate.ProductPayload>>)
    requires Valid(store.State()) && integrationId in store.integrations
    modifies store
    ensures Valid(store.State())
    ensures store.State() == ExportProductsOutcome(old(store.State()), integrationId, replies)
    ensures calls == ExportProductsCalls(old(store.State()), integrationId, webBaseUrl, replies)
  {
    var payloads := ProductTemplate.ProductsToUpdate(store.State(), webBaseUrl);
    var batch := ProductTemplate.DirtyProducts(store.products);
    var baseUrl := store.integrations[integrationId].baseUrl;
    var failed;
    if |baseUrl| == 0 {
      // `_get_base_url` raises at the first request, if there is one
      calls, failed := [], |batch| > 0;
    } else {
      calls, failed := SendProductBatch(store, store.State(), batch, payloads, baseUrl, replies);
    }
    var severity := if failed then Error else Info;
    LogOperation(store, integrationId, ExportProductsSubject, severity);
  }

  /**
    The body sent for one cart: the payload without its local id, and without
    the user id when the cart already exists remotely.
  */
  datatype CartBody = CartBody(userId: Option<int>, products: seq<SaleOrder.CartLine>)

  /** The cart request: PUT to the cart's own path without the user, or POST to the add path with it. */
  function CartRequest(remoteId: int, payload: SaleOrder.CartPayload): (r: Request<CartBody>)
    ensures r.body.products == payload.products
    ensures r.body.userId.Some? <==> remoteId == 0
    ensures r.body.userId.Some? ==> r.body.userId.value == payload.userId
    ensures r.verb == PUT <==> remoteId != 0
    ensures r.verb == POST <==> remoteId == 0
    ensures r.path == AddCartPath <==> remoteId == 0
    ensures remoteId != 0 ==> r.path == UpdateCartPath + "/" + IntToString(remoteId)
  {
    var body := CartBody(if remoteId != 0 then None else Some(payload.userId), payload.products);
    var r := ExportRequest(remoteId, UpdateCartPath, AddCartPath, body);
    assert remoteId != 0 ==> r.path[|UpdateCartPath| + 1] == IntToString(remoteId)[0];
    r
  }

  /** The write-back of one exported cart: a plain write of its remote id and a cleared flag. */
  function CommitCart(o: Order, remoteId: int): (r: Order)
    ensures r.dummyErpId == remoteId && !r.updateToDummyErp
    ensures r.(dummyErpId := o.dummyErpId, updateToDummyErp := o.updateToDummyErp) == o
  {
    o.(dummyErpId := remoteId, updateToDummyErp := false)
  }

  const ExportCartsSubject := "Update carts in dummy ERP"

  /**
    `export_dummy_carts` on a database. When the payloads cannot be built
    (a dirty order whose partner has no user) the run raises before its
    guarded part and nothing changes. Otherwise the dirty orders are sent in
    id order, the accepted ones before the first rejection are written back,
    and one entry is logged, `Info` exactly when every dirty order was accepted.
  */
  function ExportCartsOutcome(db: DB, integrationId: nat, replies: seq<Reply>): (r: DB)
    requires Valid(db) && integrationId in db.integrations
    ensures SaleOrder.CartsToUpdate(db).None? ==> r == db
    ensures r == db.(orders := r.orders, log := r.log)
    ensures |r.orders| == |db.orders|
    ensures SaleOrder.CartsToUpdate(db).Some? ==>
      && |r.log| == |db.log| + 1 && r.log[..|db.log|] == db.log
      && r.log[|db.log|].integrationId == integrationId && r.log[|db.log|].subject == ExportCartsSubject
      && var n := |SaleOrder.DirtyOrders(db.orders)|;
         (r.log[|db.log|].severity == Info <==>
           n == 0 || (|db.integrations[integrationId].baseUrl| > 0 && forall k :: 0 <= k < n ==> Accepted(ReplyAt(replies, k))))
  {
    if SaleOrder.CartsToUpdate(db).None? then db
    else
      var batch := SaleOrder.DirtyOrders(db.orders);
      var ids := RunIds(db.integrations[integrationId].baseUrl, replies, |batch|);
      db.(orders := Exported(db.orders, batch, ids, CommitCart),
          log := db.log + [LogEntry(integrationId, ExportCartsSubject, if |ids| == |batch| then Info else Error)])
  }

  /** The calls that send the first `n` dirty orders, in order. */
  function CartCalls(db: DB, baseUrl: string, payloads: seq<SaleOrder.CartPayload>, batch: seq<nat>, n: nat)
    : (calls: seq<HttpCall<CartBody>>)
    requires n <= |batch| && |payloads| == |batch| && (n == 0 || |baseUrl| > 0)
    requires forall i :: 0 <= i < |batch| ==> batch[i] < |db.orders|
    ensures |calls| == n
    ensures forall k :: 0 <= k < n ==>
      calls[k] == PrepareCall(baseUrl, CartRequest(db.orders[batch[k]].dummyErpId, payloads[k]), None)
    decreases n
  {
    if n == 0 then []
    else CartCalls(db, baseUrl, payloads, batch, n - 1) +
         [PrepareCall(baseUrl, CartRequest(db.orders[batch[n - 1]].dummyErpId, payloads[n - 1]), None)]
  }

  /** The calls of a cart export run, in order: none when the payloads cannot be built. */
  function ExportCartsCalls(db: DB, integrationId: nat, replies: seq<Reply>): (calls: seq<HttpCall<CartBody>>)
    requires Valid(db) && integrationId in db.integrations
    ensures SaleOrder.CartsToUpdate(db).None? ==> calls == []
    ensures SaleOrder.CartsToUpdate(db).Some? ==>
      |calls| == SentCount(db.integrations[integrationId].baseUrl, replies, |SaleOrder.DirtyOrders(db.orders)|)
  {
    match SaleOrder.CartsToUpdate(db)
    case None => []
    case Some(payloads) =>
      var batch := SaleOrder.DirtyOrders(db.orders);
      var baseUrl := db.integrations[integrationId].baseUrl;
      CartCalls(db, baseUrl, payloads, batch, SentCount(baseUrl, replies, |batch|))
  }

  /** A cart accepted before the first rejection carries the id the remote side returned, and is clean. */
  lemma ExportedCartCommitted(db: DB, integrationId: nat, replies: seq<Reply>, k: nat)
    requires Valid(db) && integrationId in db.integrations && SaleOrder.CartsToUpdate(db).Some?
    requires k < |RunIds(db.integrations[integrationId].baseUrl, replies, |SaleOrder.DirtyOrders(db.orders)|)|
    ensures var batch := SaleOrder.DirtyOrders(db.orders);
      var o' := ExportCartsOutcome(db, integrationId, replies).orders[batch[k]];
      && Accepted(ReplyAt(replies, k))
      && o'.dummyErpId == ReplyAt(replies, k).returnedId.value && !o'.updateToDummyErp
      && o'.(dummyErpId := db.orders[batch[k]].dummyErpId, updateToDummyErp := true) == db.orders[batch[k]]
  {
    var batch := SaleOrder.DirtyOrders(db.orders);
    var ids := RunIds(db.integrations[integrationId].baseUrl, replies, |batch|);
    ExportedCommitted(db.orders, batch, ids, CommitCart, k);
    assert batch[k] in batch;
  }

  /** An order the run did not reach (clean, or at or after the rejection) is unchanged. */
  lemma ExportedCartUntouched(db: DB, integrationId: nat, replies: seq<Reply>, j: nat)
    requires Valid(db) && integrationId in db.integrations && j < |db.orders|
    requires var batch := SaleOrder.DirtyOrders(db.orders);
      j !in batch[..|RunIds(db.integrations[integrationId].baseUrl, replies, |batch|)|]
    ensures ExportCartsOutcome(db, integrationId, replies).orders[j] == db.orders[j]
  {
    var batch := SaleOrder.DirtyOrders(db.orders);
    if SaleOrder.CartsToUpdate(db).Some? {
      ExportedUntouched(db.orders, batch, RunIds(db.integrations[integrationId].baseUrl, replies, |batch|), CommitCart, j);
    }
  }

  /**
    A run whose payloads could be built logs one entry, `Info` exactly when
    it leaves no order dirty; a run whose payloads could not be built changes
    nothing at all.
  */
  lemma ExportCartsLogsSuccess(db: DB, integrationId: nat, replies: seq<Reply>)
    requires Valid(db) && integrationId in db.integrations
    ensures SaleOrder.CartsToUpdate(db).None? ==> ExportCartsOutcome(db, integrationId, replies) == db
    ensures SaleOrder.CartsToUpdate(db).Some? ==>
      var db' := ExportCartsOutcome(db, integrationId, replies);
      && |db'.log| == |db.log| + 1 && db'.log[..|db.log|] == db.log
      && (db'.log[|db.log|].severity == Info <==> forall j :: 0 <= j < |db'.orders| ==> !db'.orders[j].updateToDummyErp)
  {
    if SaleOrder.CartsToUpdate(db).Some? {
      var db' := ExportCartsOutcome(db, integrationId, replies);
      var batch := SaleOrder.DirtyOrders(db.orders);
      var ids := RunIds(db.integrations[integrationId].baseUrl, replies, |batch|);
      assert db'.log[..|db.log|] == db.log;
      if |ids| == |batch| {
        forall j | 0 <= j < |db'.orders| ensures !db'.orders[j].updateToDummyErp {
          if db.orders[j].updateToDummyErp {
            var k :| 0 <= k < |batch| && batch[k] == j;
            ExportedCartCommitted(db, integrationId, replies, k);
          } else {
            assert j !in batch;
            ExportedCartUntouched(db, integrationId, replies, j);
          }
        }
      } else {
        var j := batch[|ids|];
        assert j !in batch[..|ids|];
        ExportedCartUntouched(db, integrationId, replies, j);
        assert db'.orders[j].updateToDummyErp;
      }
    }
  }

  /** The write-back of one accepted cart on the store. */
  method WriteBackCart(store: Store, o: nat, remoteId: int)
    requires Valid(store.State()) && o < |store.orders|
    modifies store
    ensures Valid(store.State())
    ensures store.State() == old(store.State()).(orders := old(store.orders)[o := CommitCart(old(store.orders)[o], remoteId)])
  {
    store.orders := store.orders[o := CommitCart(store.orders[o], remoteId)];
  }

  /**
    One iteration of the cart export: send the `k`-th dirty order and, when
    the reply is accepted, write the returned id back.
  */
  method SendCart(store: Store, ghost db: DB, batch: seq<nat>, payloads: seq<SaleOrder.CartPayload>,
                  baseUrl: string, replies: seq<Reply>, k: nat, ghost ids: seq<int>,
                  calls: seq<HttpCall<CartBody>>)
    returns (calls': seq<HttpCall<CartBody>>, accepted: bool, ghost ids': seq<int>)
    requires Valid(store.State()) && |baseUrl| > 0 && Increasing(batch) && k < |batch| == |payloads|
    requires forall i :: 0 <= i < |batch| ==> batch[i] < |db.orders|
    requires ids == RunIds(baseUrl, replies, k) && |ids| == k
    requires calls == CartCalls(db, baseUrl, payloads, batch, k)
    requires store.State() == db.(orders := Exported(db.orders, batch, ids, CommitCart))
    modifies store
    ensures Valid(store.State())
    ensures calls' == CartCalls(db, baseUrl, payloads, batch, k + 1)
    ensures accepted <==> Accepted(ReplyAt(replies, k))
    ensures accepted ==> (ids' == RunIds(baseUrl, replies, k + 1) && |ids'| == k + 1 &&
      store.State() == db.(orders := Exported(db.orders, batch, ids', CommitCart)))
    ensures !accepted ==> store.State() == old(store.State()) && RunIds(baseUrl, replies, |batch|) == RunIds(baseUrl, replies, k)
    ensures !accepted ==> SentCount(baseUrl, replies, |batch|) == k + 1
  {
    var id := batch[k];
    ExportedUntouched(db.orders, batch, ids, CommitCart, id);
    var call := PrepareCall(baseUrl, CartRequest(store.orders[id].dummyErpId, payloads[k]), None);
    calls' := calls + [call];
    assert calls' == CartCalls(db, baseUrl, payloads, batch, k + 1);
    var reply := ReplyAt(replies, k);
    accepted := Accepted(reply);
    if accepted {
      var remoteId := reply.returnedId.value;
      assert RunIds(baseUrl, replies, k + 1) == ids + [remoteId];
      assert (ids + [remoteId])[..k] == ids;
      ids' := ids + [remoteId];
      WriteBackCart(store, id, remoteId);
    } else {
      RunIdsStopped(baseUrl, replies, k, |batch|);
      assert SentCount(baseUrl, replies, |batch|) == k + 1;
      ids' := ids;
    }
  }

  /**
    The sending loop of `export_dummy_carts`: send the payloads of the dirty
    orders in order until one is rejected, writing back each accepted one.
  */
  method SendCartBatch(store: Store, ghost db: DB, batch: seq<nat>, payloads: seq<SaleOrder.CartPayload>,
                       baseUrl: string, replies: seq<Reply>)
    returns (calls: seq<HttpCall<CartBody>>, failed: bool)
    requires Valid(store.State()) && store.State() == db && batch == SaleOrder.DirtyOrders(db.orders)
    requires |payloads| == |batch| && |baseUrl| > 0
    modifies store
    ensures Valid(store.State())
    ensures store.State() == db.(orders := Exported(db.orders, batch, RunIds(baseUrl, replies, |batch|), CommitCart))
    ensures failed <==> |RunIds(baseUrl, replies, |batch|)| < |batch|
    ensures calls == CartCalls(db, baseUrl, payloads, batch, SentCount(baseUrl, replies, |batch|))
  {
    assert forall i :: 0 <= i < |batch| ==> batch[i] < |db.orders|;
    assert RunIds(baseUrl, replies, 0) == [];
    calls := [];
    failed := false;
    var k := 0;
    ghost var ids: seq<int> := [];
    while k < |batch|
      invariant 0 <= k <= |batch|
      invariant Valid(store.State())
      invariant ids == RunIds(baseUrl, replies, k) && |ids| == k
      invariant store.State() == db.(orders := Exported(db.orders, batch, ids, CommitCart))
      invariant calls == CartCalls(db, baseUrl, payloads, batch, k)
    {
      var accepted;
      ghost var ids';
      calls, accepted, ids' := SendCart(store, db, batch, payloads, baseUrl, replies, k, ids, calls);
      if !accepted {
        failed := true;
        break;
      }
      k := k + 1;
      ids := ids';
    }
    if !failed {
      assert SentCount(baseUrl, replies, |batch|) == |batch|;
    }
  }

  /**
    `export_dummy_carts` as a store operation: the calls it sends, in order.
    Building the payloads happens outside the guarded part, so when it fails
    the run sends and logs nothing.
  */
  method ExportDummyCarts(store: Store, integrationId: nat, replies: seq<Reply>)
    returns (calls: seq<HttpCall<CartBody>>)
    requires Valid(store.State()) && integrationId in store.integrations
    modifies store
    ensures Valid(store.State())
    ensures store.State() == ExportCartsOutcome(old(store.State()), integrationId, replies)
    ensures calls == ExportCartsCalls(old(store.State()), integrationId, replies)
  {
    var carts := SaleOrder.CartsToUpdate(store.State());
    if carts.None? {
      return [];
    }
    var batch := SaleOrder.DirtyOrders(store.orders);
    var baseUrl := store.integrations[integrationId].baseUrl;
    var failed;
    if |baseUrl| == 0 {
      // `_get_base_url` raises at the first request, if there is one
      calls, failed := [], |batch| > 0;
    } else {
      calls, failed := SendCartBatch(store, store.State(), batch, carts.value, baseUrl, replies);
    }
    var severity := if failed then Error else Info;
    LogOperation(store, integrationId, ExportCartsSubject, severity);
  }
}
