// What a transaction may do, step by step, and what it may have done when it ends.
module Journal {
  import opened QuadletNames
  import opened Model
  import opened Hosts

  // The part of the machine that plans read and write.
  datatype Ledger = Ledger(store: map<string, string>, records: map<string, Instance>)

  // A transaction in progress: where it started, the instance it works for, the names it
  // may take away and the units on that instance's record, the sources it may put in place,
  // the store it aims for, and whether the units concerned were under the engine's control
  // when it started.
  datatype Context = Context(
    start: View, id: string, own: set<string>, mine: set<Unit>, offers: set<(string, string)>,
    target: map<string, string>, controlled: bool)

  // The units a transaction may touch: those on the record and those of the plan's names.
  function Concerned(c: Context): set<Unit> {
    c.mine + set p | p in c.offers :: Service(p.0)
  }

  // All other units are as they were at the start.
  ghost predicate Untouched(c: Context, running: map<Unit, string>) {
    SameBut(c.start.running, running, Concerned(c))
  }

  // The starting store, but for own sources that were read, taken out and put back: of those
  // the client has read no more than its limit.
  ghost predicate Returned(start: map<string, string>, own: set<string>, store: map<string, string>) {
    && store.Keys == start.Keys
    && forall n :: n in store ==> store[n] == start[n] || (n in own && store[n] == Cut(start[n]))
  }

  // No own source is beyond that limit.
  ghost predicate Short(start: map<string, string>, own: set<string>) {
    forall n :: n in own && n in start ==> |start[n]| <= READ_LIMIT
  }

  // The starting store with all own sources read and put back.
  function Reread(start: map<string, string>, own: set<string>): map<string, string> {
    map n | n in start :: if n in own then Cut(start[n]) else start[n]
  }

  // A rollback gives the starting store back, to the letter, exactly when its sources are
  // within the limit.
  lemma RereadIsWholeIffShort(start: map<string, string>, own: set<string>)
    ensures Returned(start, own, Reread(start, own))
    ensures Reread(start, own) == start <==> Short(start, own)
    ensures Short(start, own) <==> forall store :: Returned(start, own, store) ==> store == start
  {
    var all := Reread(start, own);
    if !Short(start, own) {
      var n :| n in own && n in start && |start[n]| > READ_LIMIT;
      assert |all[n]| != |start[n]|;
      assert Returned(start, own, all);
    }
  }

  // Sources the transaction does not own are there, unchanged; and every live source is an
  // original, an own one as read back, or one the plan offers.
  ghost predicate Between(c: Context, store: map<string, string>) {
    && (forall n :: n in c.start.store && n !in c.own ==> n in store && store[n] == c.start.store[n])
    && (forall n :: n in store ==> Original(c, n, store[n]) || (n, store[n]) in c.offers)
  }

  ghost predicate Original(c: Context, n: string, source: string) {
    n in c.start.store && (source == c.start.store[n] || (n in c.own && source == Cut(c.start.store[n])))
  }

  // A record tells the truth about the store: the baselines of an active instance all match
  // live sources, the names of a removed instance are all gone.
  ghost predicate Honest(record: Instance, store: map<string, string>) {
    if record.removedAt.None? then DriftFree(record, store)
    else forall n :: n in record.resources ==> n !in store
  }

  ghost predicate HonestRecords(c: Context, v: View) {
    || v.records == c.start.records
    || (c.id in v.records && v.records == c.start.records[c.id := v.records[c.id]] && Honest(v.records[c.id], v.store))
  }

  ghost predicate StopsOk(tr: seq<Step>) {
    forall s :: s in tr && s.call.StopUnit? ==> s.ok
  }

  ghost predicate RollbackSourcesOk(tr: seq<Step>) {
    forall s :: s in tr && s.phase.Rollback? && (s.call.InstallSource? || s.call.RemoveSource?) ==> s.ok
  }

  // The phases in which systemd has been told to reload.
  ghost function ReloadPhases(tr: seq<Step>): set<Phase> {
    set s | s in tr && s.call.Reload? :: s.phase
  }

  // The calls of a journal, in order: those made going forward, those made in rollback, and
  // of the former those that failed.
  datatype Log = Log(forward: seq<Call>, back: seq<Call>, refused: set<Call>)

  function Noted(log: Log, phase: Phase, call: Call, ok: bool): Log {
    match phase
    case Forward => log.(forward := log.forward + [call], refused := log.refused + if ok then {} else {call})
    case Rollback => log.(back := log.back + [call])
  }

  ghost function LogOf(tr: seq<Step>): Log {
    if tr == [] then Log([], [], {})
    else
      var last := tr[|tr| - 1];
      Noted(LogOf(tr[..|tr| - 1]), last.phase, last.call, last.ok)
  }

  // What a failed call reports.
  function ErrorOf(call: Call): Error {
    match call
    case InstallSource(name, _) => SourceRefused(name)
    case RemoveSource(name, _) => SourceRefused(name)
    case Reload => ReloadFailed
    case StartUnit(u) => UnitFailed(u)
    case StopUnit(u) => UnitFailed(u)
    case RestartUnit(u) => UnitFailed(u)
    case SaveRecord(_) => SaveFailed
  }

  // Exactly these calls were made going forward; and if one of them failed, e is what it
  // reported.
  ghost predicate Went(before: Log, after: Log, calls: seq<Call>, e: Option<Error>) {
    && after.forward == before.forward + calls && after.back == before.back
    && forall call :: call in after.refused ==> call in before.refused || (e.Some? && ErrorOf(call) == e.value)
  }

  // Exactly these calls were made in rollback.
  ghost predicate WentBack(before: Log, after: Log, calls: seq<Call>) {
    after == before.(back := before.back + calls)
  }

  lemma WentNowhere(log: Log)
    ensures Went(log, log, [], None) && WentBack(log, log, [])
  {
  }

  lemma WentOne(before: Log, mid: Log, calls: seq<Call>, call: Call, e: Option<Error>)
    requires Went(before, mid, calls, None) && (e.Some? ==> ErrorOf(call) == e.value)
    ensures Went(before, Noted(mid, Forward, call, e.None?), calls + [call], e)
  {
  }

  lemma WentOn(before: Log, mid: Log, after: Log, calls: seq<Call>, more: seq<Call>, e: Option<Error>)
    requires Went(before, mid, calls, None) && Went(mid, after, more, e)
    ensures Went(before, after, calls + more, e)
  {
  }

  lemma WentBackOn(before: Log, mid: Log, after: Log, calls: seq<Call>, more: seq<Call>)
    requires WentBack(before, mid, calls) && WentBack(mid, after, more)
    ensures WentBack(before, after, calls + more)
  {
  }

  // The calls a rollback has made, and those of them that failed.
  ghost function Attempts(tr: seq<Step>): set<Call> {
    set s | s in tr && s.phase.Rollback? :: s.call
  }

  ghost function Failures(tr: seq<Step>): set<Call> {
    set s | s in tr && s.phase.Rollback? && !s.ok :: s.call
  }

  // What step s must respect when it follows the steps in tr:
  // foreign sources survive, units that do not concern the transaction are left alone, and
  // the saved record is honest after it; systemd reads the whole new source set going
  // forward and the whole old one in rollback, there unless one of the rollback's own source
  // calls has failed, and each at most once; only concerned units are started and stopped;
  // and an unforced removal never hits a running unit, unless a stop has failed.
  ghost predicate StepFits(c: Context, tr: seq<Step>, s: Step) {
    && Between(c, s.after.store)
    && Untouched(c, s.after.running)
    && HonestRecords(c, s.after)
    && (s.call.Reload? ==> s.phase !in ReloadPhases(tr) && ReadsWholeSet(c, tr, s))
    && (s.call.StartUnit? || s.call.StopUnit? || s.call.RestartUnit? ==> s.call.unit in Concerned(c))
    && (s.call.RemoveSource? && !s.call.force && c.controlled && StopsOk(tr) ==>
          Service(s.call.name) !in s.before.running)
  }

  ghost predicate ReadsWholeSet(c: Context, tr: seq<Step>, s: Step) {
    if s.phase.Forward? then s.before.store == c.target
    else RollbackSourcesOk(tr) ==> Returned(c.start.store, c.own, s.before.store)
  }

  // Every step of the journal fits the steps before it.
  ghost predicate Good(c: Context, tr: seq<Step>) {
    tr == [] || (var k := |tr| - 1; Good(c, tr[..k]) && StepFits(c, tr[..k], tr[k]))
  }

  lemma Extend(c: Context, tr: seq<Step>, s: Step)
    requires Good(c, tr) && StepFits(c, tr, s)
    ensures Good(c, tr + [s])
    ensures StopsOk(tr + [s]) <==> StopsOk(tr) && (s.call.StopUnit? ==> s.ok)
    ensures RollbackSourcesOk(tr + [s]) <==>
      RollbackSourcesOk(tr) && (s.phase.Rollback? && (s.call.InstallSource? || s.call.RemoveSource?) ==> s.ok)
    ensures ReloadPhases(tr + [s]) == ReloadPhases(tr) + if s.call.Reload? then {s.phase} else {}
    ensures LogOf(tr + [s]) == Noted(LogOf(tr), s.phase, s.call, s.ok)
    ensures Attempts(tr + [s]) == Attempts(tr) + if s.phase.Rollback? then {s.call} else {}
    ensures Failures(tr + [s]) == Failures(tr) + if s.phase.Rollback? && !s.ok then {s.call} else {}
  {
    assert (tr + [s])[..|tr|] == tr;
    assert s in tr + [s];
    hide Good, StepFits;
    assert forall x :: x in tr + [s] <==> x in tr || x == s;
  }

  lemma {:induction false} GoodEverywhere(c: Context, tr: seq<Step>, k: nat)
    requires Good(c, tr) && k < |tr|
    ensures StepFits(c, tr[..k], tr[k])
  {
    var last := |tr| - 1;
    if k < last {
      GoodEverywhere(c, tr[..last], k);
      assert tr[..last][..k] == tr[..k];
    }
  }

  lemma LinkOne(generates: (string, string) -> bool, start: View, tr: seq<Step>, s: Step)
    requires Linked(generates, start, tr, s.before) && Obeys(generates, s)
    ensures Linked(generates, start, tr + [s], s.after)
  {
    assert (tr + [s])[..|tr|] == tr;
  }

  // Each step of a linked journal begins where the one before ended.
  lemma {:induction false} LinkedAt(generates: (string, string) -> bool, start: View, tr: seq<Step>, now: View, k: nat)
    requires Linked(generates, start, tr, now) && k < |tr|
    ensures Obeys(generates, tr[k])
    ensures tr[k].before == if k == 0 then start else tr[k - 1].after
    ensures k == |tr| - 1 ==> now == tr[k].after
  {
    var last := |tr| - 1;
    if k < last {
      LinkedAt(generates, start, tr[..last], tr[last].before, k);
    } else if last > 0 {
      LinkedAt(generates, start, tr[..last], tr[last].before, last - 1);
    }
  }

  // v is one of the states a journal from start to now passes through.
  ghost predicate Passes(start: View, tr: seq<Step>, now: View, v: View) {
    v == start || v == now || exists k :: 0 <= k < |tr| && (v == tr[k].before || v == tr[k].after)
  }

  lemma StartFits(c: Context)
    ensures Between(c, c.start.store) && Untouched(c, c.start.running) && HonestRecords(c, c.start)
  {
  }

  lemma StepLeaves(c: Context, tr: seq<Step>, k: nat)
    requires Good(c, tr) && k < |tr|
    ensures Between(c, tr[k].after.store) && Untouched(c, tr[k].after.running) && HonestRecords(c, tr[k].after)
  {
    GoodEverywhere(c, tr, k);
  }

  // In every state of a good and linked journal, foreign sources and units are as they were
  // and the saved record is honest.
  lemma {:induction false} StatesFit(
    c: Context, generates: (string, string) -> bool, tr: seq<Step>, now: View, v: View)
    requires Good(c, tr) && Linked(generates, c.start, tr, now) && Passes(c.start, tr, now, v)
    ensures Between(c, v.store) && Untouched(c, v.running) && HonestRecords(c, v)
  {
    hide StepFits, Obeys, Untouched, Between, HonestRecords;
    if v == c.start || (v == now && tr == []) {
      StartFits(c);
    } else {
      var k :| 0 <= k < |tr| && (v == tr[k].before || v == tr[k].after || (v == now && k == |tr| - 1));
      LinkedAt(generates, c.start, tr, now, k);
      StepLeaves(c, tr, k);
      if k > 0 {
        StepLeaves(c, tr, k - 1);
      } else {
        StartFits(c);
      }
    }
  }

  // The units systemd generates for these resources.
  function UnitsOf(m: map<string, ResourceState>): set<Unit> {
    set n | n in m && m[n].unit != NoUnit :: m[n].unit
  }

  function UnitFor(generates: (string, string) -> bool, name: string, source: string): Unit {
    if generates(name, source) then Service(name) else NoUnit
  }

  // Before it runs, a record's units are the ones its live sources generate, also as the
  // client reads them; of the plan's other units, none under a free name is running.
  ghost predicate Controlled(
    generates: (string, string) -> bool, start: View, record: Instance, offers: set<(string, string)>)
  {
    && (forall n :: n in record.resources && n in start.store ==>
          && record.resources[n].unit == UnitFor(generates, n, start.store[n])
          && generates(n, Cut(start.store[n])) == generates(n, start.store[n]))
    && (forall n :: n in record.resources && Service(n) in start.running ==> record.resources[n].unit == Service(n))
    && (forall p :: p in offers && p.0 !in record.resources && p.0 !in start.store ==> Service(p.0) !in start.running)
  }

  // The client can reach every one of these names, and they are all live.
  ghost predicate Reachable(store: map<string, string>, names: set<string>) {
    forall n :: n in names ==> n in store && ClientAccepts(n)
  }

  // The transaction works on this record: it owns exactly the record's names, all live, and
  // its units.
  ghost predicate WorksOn(generates: (string, string) -> bool, c: Context, record: Instance) {
    && c.own == record.resources.Keys
    && Reachable(c.start.store, c.own)
    && c.mine == UnitsOf(record.resources)
    && (c.controlled ==> Controlled(generates, c.start, record, c.offers))
  }

  // Every one of these units runs the source of its name.
  ghost predicate AllRunning(units: set<Unit>, sources: map<string, string>, running: map<Unit, string>) {
    forall u :: u in units ==> u in running && u.Service? && u.name in sources && running[u] == sources[u.name]
  }

  // The baselines a finished install or update records.
  ghost predicate Captured(
    generates: (string, string) -> bool, resources: map<string, ResourceState>, rs: seq<Rendered>,
    store: map<string, string>)
  {
    && resources.Keys == NameSet(Names(rs))
    && Reachable(store, resources.Keys)
    && (forall n :: n in resources ==>
          resources[n] ==
            ResourceState(n, UnitFor(generates, n, store[n]), Sha256(Cut(store[n])), Cut(store[n])))
  }

  // The source map a plan aims for, given the record it works on.
  function TargetStore(store: map<string, string>, plan: Plan, own: set<string>): map<string, string> {
    match plan.operation
    case Install => store + SourceMap(plan.resources)
    case Update => (store - own) + SourceMap(plan.resources)
    case Remove => store - own
    case Other(_) => store
  }

  function Offers(rs: seq<Rendered>): set<(string, string)> {
    set r | r in rs :: (r.name, r.content)
  }

  // systemd generates every unit the resources want started.
  ghost predicate AllGenerate(generates: (string, string) -> bool, rs: seq<Rendered>, store: map<string, string>) {
    forall r :: r in rs && r.start ==> r.name in store && generates(r.name, store[r.name])
  }

  // Nothing in the plan stands in its own way: the client takes its names, they are distinct
  // and free once the record's own are gone, and systemd can generate every unit to be
  // started.
  ghost predicate PlanFits(
    generates: (string, string) -> bool, store: map<string, string>, plan: Plan, own: set<string>)
  {
    && Placeable(store, plan, own)
    && (forall r :: r in plan.resources && r.start ==> generates(r.name, r.content))
  }

  // The plan's sources can be installed in place of the own ones.
  ghost predicate Placeable(store: map<string, string>, plan: Plan, own: set<string>) {
    && Distinct(Names(plan.resources))
    && (forall r :: r in plan.resources ==> ClientAccepts(r.name))
    && (forall r :: r in plan.resources ==> r.name !in store - own)
  }

  // The names a plan may take away: those of the record it works on.
  function OwnNames(records: map<string, Instance>, plan: Plan): set<string> {
    if plan.operation.Install? || plan.instanceId !in records then {}
    else records[plan.instanceId].resources.Keys
  }

  // The transaction an execution of this plan amounts to, started from this machine state.
  ghost function ContextOf(generates: (string, string) -> bool, start: View, plan: Plan): Context {
    var id := plan.instanceId;
    var own := OwnNames(start.records, plan);
    var mine := if plan.operation.Install? || id !in start.records then {} else UnitsOf(start.records[id].resources);
    var offers := if plan.operation.Remove? then {} else Offers(plan.resources);
    Context(
      start,
      if plan.operation.Remove? && id in start.records then start.records[id].id else id,
      own, mine, offers,
      TargetStore(start.store, plan, own),
      id in start.records && Controlled(generates, start, start.records[id], offers))
  }

  // The plan's sources are all in place under fresh names, and the saved record says so.
  ghost predicate Deployed(
    generates: (string, string) -> bool, pre: Ledger, plan: Plan, post: Ledger, own: set<string>,
    previous: Option<Instance>)
  {
    var id := plan.instanceId;
    && id in post.records
    && var record := post.records[id];
    && var now := record.updatedAt;
    && post.records == pre.records[id := record]
    && Placeable(pre.store, plan, own)
    && Captured(generates, record.resources, plan.resources, post.store)
    && record == Instance(
         id, plan.appId, plan.catalogVersion, plan.parameters, record.resources, plan.directories,
         if previous.Some? then previous.value.installedAt else now, now, None,
         (if previous.Some? then previous.value.history else []) + [Entry(now, plan.operation)])
  }

  // The plan took full effect and its record was saved.
  ghost predicate Committed(generates: (string, string) -> bool, pre: Ledger, plan: Plan, post: Ledger) {
    var id := plan.instanceId;
    var own := OwnNames(pre.records, plan);
    && post.store == TargetStore(pre.store, plan, own)
    && match plan.operation
       case Install => Deployed(generates, pre, plan, post, {}, None)
       case Update => id in pre.records && Deployed(generates, pre, plan, post, own, Some(pre.records[id]))
       case Remove =>
         && id in pre.records
         && var record := pre.records[id];
         && record.id in post.records
         && var now := post.records[record.id].updatedAt;
         && post.records == pre.records[record.id :=
              record.(removedAt := Some(now), updatedAt := now, history := record.history + [Entry(now, Remove)])]
       case Other(_) => post.records == pre.records
  }

  // The plan's sources are in place and served, whatever became of its record.
  predicate Through(e: Option<Error>) {
    e.None? || e == Some(DocsFailed) || e == Some(SaveFailed)
  }

  predicate IsRollbackFailure(e: Option<Error>) {
    e.Some? && e.value.RollbackFailed?
  }

  // How a transaction that was let through may end, by what it returned.
  ghost predicate Finished(
    generates: (string, string) -> bool, pre: Ledger, plan: Plan, e: Option<Error>, post: Ledger)
  {
    var own := OwnNames(pre.records, plan);
    && (e.None? || e == Some(DocsFailed) ==> Committed(generates, pre, plan, post))
    && (e == Some(SaveFailed) ==> Unsaved(pre, plan, own, post))
    && (IsRollbackFailure(e) ==>
          post.records == pre.records &&
          forall n :: n in pre.store && n !in own ==> n in post.store && post.store[n] == pre.store[n])
    && (!Through(e) && !IsRollbackFailure(e) ==>
          post.records == pre.records && Returned(pre.store, own, post.store))
  }

  // The new sources are in place under the old records.
  ghost predicate Unsaved(pre: Ledger, plan: Plan, own: set<string>, post: Ledger) {
    && post.records == pre.records
    && post.store == TargetStore(pre.store, plan, own)
    && (plan.operation.Install? || plan.operation.Update? ==> Placeable(pre.store, plan, own))
  }

  // Everything an execution may do to sources and records. Anything but an install is
  // refused outright when a baseline of its record does not match the live source.
  ghost predicate Executed(
    generates: (string, string) -> bool, pre: Ledger, plan: Plan, e: Option<Error>, post: Ledger)
  {
    var id := plan.instanceId;
    && Finished(generates, pre, plan, e, post)
    && (!plan.operation.Install? && (id !in pre.records || !DriftFree(pre.records[id], pre.store)) ==>
          !Through(e) && !IsRollbackFailure(e) && post == pre)
  }
}
