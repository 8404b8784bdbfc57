/** The automatic lot reconciler (backend/app/services/lot_auto_manager.py) while every remote call succeeds.

    Lot rows are never removed, so a lot's id is its index.  Capacity and the rendered contents are inputs:
    a matrix row carries whether an account is available for it and what its offer should say, or nothing
    when its template does not render. */
module Reconciler {
  import opened Rows

  type ConfigKey = nat
  type LotId = nat

  datatype LotStatus = OnSale | OffSale | Deleted
  datatype PausedReason = NoConfig | NoAccount | TemplateError | PublishPending | CatalogUnavailable | ByOperator

  /** Price, node, wording and thresholds of the offer. */
  datatype Content = Content(price: int, node: int, texts: seq<string>, minPct: Option<int>, shortPct: Option<int>, longPct: Option<int>)

  /** `live` says whether the remote offer is active; `catalogOk` and `supported` come from the lot's tier,
      duration and scope rows. */
  datatype Lot = Lot(
    key: ConfigKey, auto: bool, status: LotStatus, reason: Option<PausedReason>,
    bound: bool, synced: bool, live: bool, content: Content, catalogOk: bool, supported: bool)

  datatype Matrix = Matrix(key: ConfigKey, capacity: bool, content: Option<Content>)

  datatype Kind = Create | Activate | Pause | Update | NoChange
  datatype LotAction = LotAction(lot: LotId, kind: Kind)

  predicate AutoReason(reason: Option<PausedReason>) {
    reason.None? || reason.value.NoConfig? || reason.value.NoAccount? || reason.value.TemplateError? || reason.value.PublishPending?
  }

  predicate AutoPaused(l: Lot) { l.status.OffSale? && AutoReason(l.reason) }

  /** Taken off sale by an operator, or by the catalog while it was not the automation's. */
  ghost predicate OperatorPaused(l: Lot) {
    l.status == OffSale && (l.reason == Some(ByOperator) || l.reason == Some(CatalogUnavailable))
  }

  // ---- What each pass does to one lot -----------------------------------------------------------

  function Taken(l: Lot, reason: PausedReason): Lot { l.(status := OffSale, reason := Some(reason), live := false) }

  function Saved(l: Lot, active: bool): Lot { l.(bound := true, synced := true, live := active) }

  function Opened(l: Lot): Lot { Saved(l, true).(status := OnSale, reason := None) }

  predicate CatalogInvalid(l: Lot) { l.status.OnSale? && !l.catalogOk }

  function AfterCatalog(l: Lot): Lot {
    if !CatalogInvalid(l) then l
    else Taken(l, if l.auto then NoConfig else CatalogUnavailable).(live := if l.bound then false else l.live)
  }

  predicate MarkerMissing(l: Lot) { l.bound && !l.status.Deleted? && !l.synced && l.supported }

  function AfterMarkers(l: Lot): Lot { if MarkerMissing(l) then Saved(l, l.status.OnSale?) else l }

  predicate Orphaned(l: Lot, keys: set<ConfigKey>) { l.auto && l.status.OnSale? && l.key !in keys }

  function AfterOrphans(l: Lot, keys: set<ConfigKey>): Lot { if Orphaned(l, keys) then Taken(l, NoConfig) else l }

  function AfterMatrix(l: Lot, m: Matrix, refreshStock: bool): Lot {
    if m.content.None? then (if l.status.OnSale? then Taken(l, TemplateError) else l)
    else
      var rewrite := l.content != m.content.value || refreshStock;
      var l' := l.(content := m.content.value);
      if m.capacity && AutoPaused(l) then Opened(l')
      else if m.capacity && l.status.OnSale? then (if rewrite then Saved(l', true) else l')
      else if l.status.OnSale? then Taken(if rewrite then Saved(l', false) else l', NoAccount)
      else if rewrite && l.bound then Saved(l', false)
      else l'
  }

  function MatrixKind(l: Lot, m: Matrix, refreshStock: bool): Option<Kind> {
    if m.content.None? then (if l.status.OnSale? then Some(Pause) else None)
    else if m.capacity && AutoPaused(l) then Some(Activate)
    else if !m.capacity && l.status.OnSale? then Some(Pause)
    else Some(if l.content != m.content.value || refreshStock then Update else NoChange)
  }

  function NewLot(m: Matrix): Lot
    requires m.content.Some?
  {
    Opened(Lot(m.key, true, OffSale, Some(PublishPending), false, false, false, m.content.value, true, true))
  }

  // ---- The same, field by field -----------------------------------------------------------------

  /** A lot on sale whose catalog rows are not sellable goes off sale. */
  ghost predicate PausesInvalid(l: Lot, l': Lot) {
    l' == if l.status == OnSale && !l.catalogOk
          then l.(status := OffSale, reason := Some(if l.auto then NoConfig else CatalogUnavailable), live := l.live && !l.bound)
          else l
  }

  /** A published lot without its marker is saved again, in the state it is in. */
  ghost predicate MarksAgain(l: Lot, l': Lot) {
    l' == if l.bound && l.status != Deleted && !l.synced && l.supported then l.(synced := true, live := l.status == OnSale) else l
  }

  /** A lot of the automation on sale without a matrix row goes off sale. */
  ghost predicate PausesOrphan(l: Lot, l': Lot, keys: set<ConfigKey>) {
    l' == if l.auto && l.status == OnSale && l.key !in keys
          then l.(status := OffSale, reason := Some(NoConfig), live := false) else l
  }

  /** May be put back on sale by the automation. */
  ghost predicate Reopenable(l: Lot) {
    l.status == OffSale
    && (l.reason == None || l.reason == Some(NoConfig) || l.reason == Some(NoAccount) || l.reason == Some(TemplateError)
        || l.reason == Some(PublishPending))
  }

  /** A lot under its matrix row: off sale if the row does not render; otherwise it takes the row's content, is on
      sale if there is an account unless an operator paused it, off sale if there is none, and its offer is
      saved when it is opened, or when there is something to rewrite. */
  ghost predicate AppliesMatrix(l: Lot, l': Lot, m: Matrix, refreshStock: bool) {
    match m.content
    case None => l' == if l.status == OnSale then l.(status := OffSale, reason := Some(TemplateError), live := false) else l
    case Some(content) =>
      var rewrites := content != l.content || refreshStock;
      var opens := m.capacity && Reopenable(l);
      var stays := m.capacity && l.status == OnSale;
      var closes := !m.capacity && l.status == OnSale;
      var saves := opens || (rewrites && (stays || closes || l.bound));
      l' == l.(content := content,
               status := if opens then OnSale else if closes then OffSale else l.status,
               reason := if opens then None else if closes then Some(NoAccount) else l.reason,
               bound := l.bound || saves, synced := l.synced || saves,
               live := if closes then false else if saves then opens || stays else l.live)
  }

  /** What is reported of it. */
  ghost predicate ReportsMatrix(l: Lot, kind: Option<Kind>, m: Matrix, refreshStock: bool) {
    && (kind == None <==> m.content.None? && l.status != OnSale)
    && (kind == Some(Pause) <==> l.status == OnSale && (m.content.None? || !m.capacity))
    && (kind == Some(Activate) <==> m.content.Some? && m.capacity && Reopenable(l))
    && (kind == Some(NoChange) <==>
          m.content == Some(l.content) && !refreshStock && !(l.status == OnSale && !m.capacity) && !(m.capacity && Reopenable(l)))
    && kind != Some(Create)
  }

  lemma PassLaw(l: Lot, keys: set<ConfigKey>)
    ensures PausesInvalid(l, AfterCatalog(l)) && MarksAgain(l, AfterMarkers(l)) && PausesOrphan(l, AfterOrphans(l, keys), keys)
    ensures CatalogInvalid(l) <==> l.status == OnSale && !l.catalogOk
    ensures MarkerMissing(l) <==> l.bound && l.status != Deleted && !l.synced && l.supported
    ensures Orphaned(l, keys) <==> l.auto && l.status == OnSale && l.key !in keys
  {
  }

  lemma MatrixLaw(l: Lot, m: Matrix, refreshStock: bool)
    ensures AppliesMatrix(l, AfterMatrix(l, m, refreshStock), m, refreshStock)
    ensures ReportsMatrix(l, MatrixKind(l, m, refreshStock), m, refreshStock)
  {
  }

  /** A created lot is published and on sale at once. */
  lemma NewLotLaw(m: Matrix)
    requires m.content.Some?
    ensures NewLot(m) == Lot(m.key, true, OnSale, None, true, true, true, m.content.value, true, true)
  {
  }

  // ---- The whole run, lot by lot ----------------------------------------------------------------

  function MatrixFor(ms: seq<Matrix>, key: ConfigKey): (r: Option<Matrix>)
    ensures r.None? <==> forall k :: 0 <= k < |ms| ==> ms[k].key != key
    ensures r.Some? ==> r.value in ms && r.value.key == key
  {
    if ms == [] then None
    else if ms[|ms| - 1].key == key then Some(ms[|ms| - 1])
    else MatrixFor(ms[..|ms| - 1], key)
  }

  function Keys(ms: seq<Matrix>): set<ConfigKey> { set m | m in ms :: m.key }

  function BeforeMatrices(l: Lot, keys: set<ConfigKey>): Lot { AfterOrphans(AfterMarkers(AfterCatalog(l)), keys) }

  function AfterMatrices(l: Lot, ms: seq<Matrix>, refreshStock: bool): Lot {
    var m := MatrixFor(ms, l.key);
    if m.None? then l else AfterMatrix(l, m.value, refreshStock)
  }

  function Reconciled(l: Lot, ms: seq<Matrix>, refreshStock: bool): Lot {
    AfterMatrices(BeforeMatrices(l, Keys(ms)), ms, refreshStock)
  }

  predicate InScope(l: Lot) { l.auto && !l.status.Deleted? && l.catalogOk && l.supported }

  predicate PendingIfUnbound(l: Lot) {
    l.auto && !l.bound && !l.status.Deleted? ==> l.status.OffSale? && l.reason == Some(PublishPending)
  }

  /** Configuration keys identify lots and matrix rows; a matrix row meets neither a manual nor a deleted
      lot; and a lot that is, or may be put back, on sale was published. */
  ghost predicate Consistent(lots: seq<Lot>, ms: seq<Matrix>) {
    && DistinctKeys(lots)
    && (forall j, k :: 0 <= j < k < |ms| ==> ms[j].key != ms[k].key)
    && (forall l :: l in lots && l.key in Keys(ms) ==> InScope(l))
    && (forall l :: l in lots ==> PendingIfUnbound(l))
  }

  predicate DistinctKeys(lots: seq<Lot>) { forall i, j :: 0 <= i < j < |lots| ==> lots[i].key != lots[j].key }

  predicate HasKey(lots: seq<Lot>, key: ConfigKey) { exists i :: 0 <= i < |lots| && lots[i].key == key }

  ghost predicate CreatedFrom(lots: seq<Lot>, l: Lot, ms: seq<Matrix>) {
    exists m :: m in ms && m.capacity && m.content.Some? && !HasKey(lots, m.key) && l == NewLot(m)
  }

  /** What a run makes of `lots`: the old lots one by one, and a new one for every sellable configuration
      that had none. */
  ghost predicate IsReconciled(lots: seq<Lot>, lots': seq<Lot>, ms: seq<Matrix>, refreshStock: bool) {
    && |lots| <= |lots'| && DistinctKeys(lots')
    && (forall i :: 0 <= i < |lots| ==> lots'[i] == Reconciled(lots[i], ms, refreshStock))
    && NewLots(lots, lots', ms) && EverySellable(lots', ms)
  }

  function MatrixAction(l: Lot, ms: seq<Matrix>, refreshStock: bool): Option<Kind> {
    var m := MatrixFor(ms, l.key);
    if m.None? then None else MatrixKind(l, m.value, refreshStock)
  }

  /** The same for the last pass alone. */
  ghost predicate Extended(lots: seq<Lot>, lots': seq<Lot>, ms: seq<Matrix>, refreshStock: bool) {
    && |lots| <= |lots'| && DistinctKeys(lots')
    && (forall i :: 0 <= i < |lots| ==> lots'[i] == AfterMatrices(lots[i], ms, refreshStock))
    && NewLots(lots, lots', ms) && EverySellable(lots', ms)
  }

  ghost predicate NewLots(lots: seq<Lot>, lots': seq<Lot>, ms: seq<Matrix>) {
    forall i :: |lots| <= i < |lots'| ==> CreatedFrom(lots, lots'[i], ms)
  }

  predicate EverySellable(lots: seq<Lot>, ms: seq<Matrix>) {
    forall m :: m in ms && m.capacity && m.content.Some? ==> HasKey(lots, m.key)
  }

  lemma NextMatrix(ms: seq<Matrix>, k: nat)
    requires k < |ms| && forall i, j :: 0 <= i < j < |ms| ==> ms[i].key != ms[j].key
    ensures ms[..k + 1][..k] == ms[..k] && MatrixFor(ms[..k], ms[k].key).None?
    ensures forall key :: MatrixFor(ms[..k + 1], key) == if key == ms[k].key then Some(ms[k]) else MatrixFor(ms[..k], key)
  {
  }

  lemma KeyKept(l: Lot, ms: seq<Matrix>, refreshStock: bool)
    ensures AfterMatrices(l, ms, refreshStock).key == l.key
  {
  }

  /** No lot of the next row's key has been through this pass. */
  lemma TakeOne(lots: seq<Lot>, lots': seq<Lot>, ms: seq<Matrix>, k: nat, refreshStock: bool)
    requires Consistent(lots, ms) && k < |ms| && Extended(lots, lots', ms[..k], refreshStock)
    ensures forall i :: |lots| <= i < |lots'| ==> lots'[i].key != ms[k].key
    ensures forall i :: 0 <= i < |lots| ==> lots'[i].key == lots[i].key
    ensures forall i :: 0 <= i < |lots| && lots[i].key == ms[k].key ==> lots'[i] == lots[i]
  {
    NextMatrix(ms, k);
    forall i | 0 <= i < |lots|
      ensures lots'[i].key == lots[i].key
    {
      KeyKept(lots[i], ms[..k], refreshStock);
    }
    forall i | |lots| <= i < |lots'|
      ensures lots'[i].key != ms[k].key
    {
      assert CreatedFrom(lots, lots'[i], ms[..k]);
      var p :| p in ms[..k] && p.capacity && p.content.Some? && !HasKey(lots, p.key) && lots'[i] == NewLot(p);
    }
  }

  /** The last pass reports each lot it met once with what it did, and each lot it created. */
  ghost predicate Reported(lots: seq<Lot>, count: nat, actions: seq<LotAction>, ms: seq<Matrix>, refreshStock: bool) {
    forall i: nat, kind :: LotAction(i, kind) in actions <==>
      if i < |lots| then MatrixAction(lots[i], ms, refreshStock) == Some(kind) else i < count && kind.Create?
  }

  /** Rewriting lots in place, or adding one, keeps every key there is. */
  lemma KeysStay(lots: seq<Lot>, after: seq<Lot>, ms: seq<Matrix>, k: nat)
    requires k < |ms| && EverySellable(lots, ms[..k]) && |lots| <= |after|
    requires forall j :: 0 <= j < |lots| ==> after[j].key == lots[j].key
    requires ms[k].capacity && ms[k].content.Some? ==> HasKey(after, ms[k].key)
    ensures EverySellable(after, ms[..k + 1])
  {
  }

  lemma NewLotsStay(lots: seq<Lot>, lots': seq<Lot>, ms: seq<Matrix>, k: nat)
    requires k < |ms| && NewLots(lots, lots', ms[..k])
    ensures NewLots(lots, lots', ms[..k + 1])
  {
  }

  lemma NewExtends(lots: seq<Lot>, lots': seq<Lot>, ms: seq<Matrix>, k: nat, refreshStock: bool)
    requires Consistent(lots, ms) && k < |ms| && Extended(lots, lots', ms[..k], refreshStock)
    requires forall j :: 0 <= j < |lots'| ==> lots'[j].key != ms[k].key || !lots'[j].auto || lots'[j].status.Deleted?
    ensures forall j :: 0 <= j < |lots| ==> lots[j].key != ms[k].key
    ensures var m := ms[k];
            Extended(lots, if m.capacity && m.content.Some? then lots' + [NewLot(m)] else lots', ms[..k + 1], refreshStock)
  {
    var m := ms[k];
    NextMatrix(ms, k);
    TakeOne(lots, lots', ms, k, refreshStock);
    assert m in ms && m.key in Keys(ms);
    assert forall j :: 0 <= j < |lots| ==> lots[j].key != m.key;
    var after := if m.capacity && m.content.Some? then lots' + [NewLot(m)] else lots';
    NewLotsStay(lots, lots', ms, k);
    if m.capacity && m.content.Some? {
      assert after[|lots'|].key == m.key;
      assert m in ms[..k + 1];
      assert CreatedFrom(lots, NewLot(m), ms[..k + 1]);
    }
    KeysStay(lots', after, ms, k);
  }

  lemma NewReported(lots: seq<Lot>, count: nat, actions: seq<LotAction>, ms: seq<Matrix>, k: nat, refreshStock: bool)
    requires Consistent(lots, ms) && k < |ms| && |lots| <= count && Reported(lots, count, actions, ms[..k], refreshStock)
    requires forall j :: 0 <= j < |lots| ==> lots[j].key != ms[k].key
    ensures Reported(lots, count, actions, ms[..k + 1], refreshStock)
    ensures Reported(lots, count + 1, actions + [LotAction(count, Create)], ms[..k + 1], refreshStock)
  {
    NextMatrix(ms, k);
  }

  lemma OldRows(lots: seq<Lot>, lots': seq<Lot>, ms: seq<Matrix>, k: nat, i: nat, refreshStock: bool)
    requires Consistent(lots, ms) && k < |ms| && i < |lots| <= |lots'| && lots[i].key == ms[k].key && lots'[i] == lots[i]
    requires forall j :: 0 <= j < |lots| ==> lots'[j] == AfterMatrices(lots[j], ms[..k], refreshStock)
    ensures var after := lots'[i := AfterMatrix(lots'[i], ms[k], refreshStock)];
            forall j :: 0 <= j < |lots| ==> after[j] == AfterMatrices(lots[j], ms[..k + 1], refreshStock)
  {
    NextMatrix(ms, k);
  }

  /** Rewriting an old lot under its key disturbs neither the keys nor the new lots. */
  lemma RewriteKeeps(lots: seq<Lot>, lots': seq<Lot>, ms: seq<Matrix>, i: nat, l: Lot)
    requires i < |lots| <= |lots'| && l.key == lots'[i].key && DistinctKeys(lots') && NewLots(lots, lots', ms)
    ensures DistinctKeys(lots'[i := l]) && NewLots(lots, lots'[i := l], ms)
    ensures forall j :: 0 <= j < |lots'| ==> lots'[i := l][j].key == lots'[j].key
  {
  }

  lemma OldExtends(lots: seq<Lot>, lots': seq<Lot>, ms: seq<Matrix>, k: nat, i: nat, refreshStock: bool)
    requires Consistent(lots, ms) && k < |ms| && Extended(lots, lots', ms[..k], refreshStock)
    requires i < |lots'| && lots'[i].key == ms[k].key
    ensures i < |lots| && lots'[i] == lots[i]
    ensures Extended(lots, lots'[i := AfterMatrix(lots'[i], ms[k], refreshStock)], ms[..k + 1], refreshStock)
  {
    TakeOne(lots, lots', ms, k, refreshStock);
    OldRows(lots, lots', ms, k, i, refreshStock);
    NewLotsStay(lots, lots', ms, k);
    RewriteKeeps(lots, lots', ms[..k + 1], i, AfterMatrix(lots'[i], ms[k], refreshStock));
    var after := lots'[i := AfterMatrix(lots'[i], ms[k], refreshStock)];
    assert after[i].key == ms[k].key;
    KeysStay(lots', after, ms, k);
  }

  lemma OldReported(lots: seq<Lot>, count: nat, actions: seq<LotAction>, ms: seq<Matrix>, k: nat, i: nat, refreshStock: bool)
    requires Consistent(lots, ms) && k < |ms| && |lots| <= count && Reported(lots, count, actions, ms[..k], refreshStock)
    requires i < |lots| && lots[i].key == ms[k].key
    ensures var kind := MatrixKind(lots[i], ms[k], refreshStock);
            Reported(lots, count, if kind.Some? then actions + [LotAction(i, kind.value)] else actions, ms[..k + 1], refreshStock)
  {
    NextMatrix(ms, k);
  }

  /** Everything a run reports, pass by pass. */
  ghost predicate RunReported(lots: seq<Lot>, count: nat, actions: seq<LotAction>, ms: seq<Matrix>, refreshStock: bool) {
    forall i: nat, kind :: LotAction(i, kind) in actions <==>
      if i < |lots| then
        || (kind.Pause? && CatalogInvalid(lots[i]))
        || (kind.Update? && MarkerMissing(AfterCatalog(lots[i])))
        || (kind.Pause? && Orphaned(AfterMarkers(AfterCatalog(lots[i])), Keys(ms)))
        || MatrixAction(BeforeMatrices(lots[i], Keys(ms)), ms, refreshStock) == Some(kind)
      else i < count && kind.Create?
  }

  /** The passes before the matrix rows leave a lot's key, its scope and its pending state. */
  lemma PassKeeps(l: Lot, keys: set<ConfigKey>)
    requires PendingIfUnbound(l) && (l.key in keys ==> InScope(l))
    ensures var l' := BeforeMatrices(l, keys);
            l'.key == l.key && PendingIfUnbound(l') && (l.key in keys ==> InScope(l'))
  {
  }

  lemma PassesKeepKeys(lots: seq<Lot>, lots': seq<Lot>)
    requires DistinctKeys(lots) && |lots'| == |lots| && forall i :: 0 <= i < |lots| ==> lots'[i].key == lots[i].key
    ensures DistinctKeys(lots')
  {
  }

  lemma PassesKeepConsistent(lots: seq<Lot>, lots': seq<Lot>, ms: seq<Matrix>)
    requires Consistent(lots, ms) && |lots'| == |lots|
    requires forall i :: 0 <= i < |lots| ==> lots'[i] == BeforeMatrices(lots[i], Keys(ms))
    ensures Consistent(lots', ms)
  {
    var keys := Keys(ms);
    forall i | 0 <= i < |lots|
      ensures lots'[i].key == lots[i].key && (lots'[i].key in keys ==> InScope(lots'[i])) && PendingIfUnbound(lots'[i])
    {
      assert lots[i] in lots;
      PassKeeps(lots[i], keys);
    }
    PassesKeepKeys(lots, lots');
  }

  lemma ExtendedIsReconciled(lots: seq<Lot>, before: seq<Lot>, lots': seq<Lot>, ms: seq<Matrix>, refreshStock: bool)
    requires |before| == |lots| && forall i :: 0 <= i < |lots| ==> before[i] == BeforeMatrices(lots[i], Keys(ms))
    requires Extended(before, lots', ms, refreshStock)
    ensures IsReconciled(lots, lots', ms, refreshStock)
  {
    assert forall i :: 0 <= i < |lots| ==> before[i].key == lots[i].key;
    assert forall key :: HasKey(before, key) == HasKey(lots, key);
    forall l | CreatedFrom(before, l, ms)
      ensures CreatedFrom(lots, l, ms)
    {
      var p :| p in ms && p.capacity && p.content.Some? && !HasKey(before, p.key) && l == NewLot(p);
      assert !HasKey(lots, p.key);
    }
  }

  // ---- The reconciler ---------------------------------------------------------------------------

  class LotAutoManager {
    var lots: seq<Lot>

    constructor (lots: seq<Lot>)
      ensures this.lots == lots
    {
      this.lots := lots;
    }

    method PauseCatalogInvalid() returns (actions: seq<LotAction>)
      modifies this
      ensures |lots| == |old(lots)| && forall i :: 0 <= i < |lots| ==> lots[i] == AfterCatalog(old(lots)[i])
      ensures forall i :: 0 <= i < |lots| ==> PausesInvalid(old(lots)[i], lots[i])
      ensures forall a :: a in actions <==>
                a.lot < |lots| && a.kind == Pause && old(lots)[a.lot].status == OnSale && !old(lots)[a.lot].catalogOk
    {
      actions := [];
      for k := 0 to |lots|
        invariant |lots| == |old(lots)|
        invariant forall i :: 0 <= i < |lots| ==> lots[i] == if i < k then AfterCatalog(old(lots)[i]) else old(lots)[i]
        invariant forall a :: a in actions <==> a.lot < k && a.kind == Pause && CatalogInvalid(old(lots)[a.lot])
      {
        if CatalogInvalid(lots[k]) {
          var l := lots[k];
          lots := lots[k := l.(status := OffSale, live := if l.bound then false else l.live,
                               reason := Some(if l.auto then NoConfig else CatalogUnavailable))];
          actions := actions + [LotAction(k, Pause)];
        }
      }
    }

    method SyncMissingMarkers() returns (actions: seq<LotAction>)
      modifies this
      ensures |lots| == |old(lots)| && forall i :: 0 <= i < |lots| ==> lots[i] == AfterMarkers(old(lots)[i])
      ensures forall i :: 0 <= i < |lots| ==> MarksAgain(old(lots)[i], lots[i])
      ensures forall a :: a in actions <==>
                a.lot < |lots| && a.kind == Update
                && old(lots)[a.lot].bound && old(lots)[a.lot].status != Deleted && !old(lots)[a.lot].synced && old(lots)[a.lot].supported
    {
      actions := [];
      for k := 0 to |lots|
        invariant |lots| == |old(lots)|
        invariant forall i :: 0 <= i < |lots| ==> lots[i] == if i < k then AfterMarkers(old(lots)[i]) else old(lots)[i]
        invariant forall a :: a in actions <==> a.lot < k && a.kind == Update && MarkerMissing(old(lots)[a.lot])
      {
        if MarkerMissing(lots[k]) {
          lots := lots[k := lots[k].(synced := true, live := lots[k].status == OnSale)];
          actions := actions + [LotAction(k, Update)];
        }
      }
    }

    method PauseOrphans(keys: set<ConfigKey>) returns (actions: seq<LotAction>)
      modifies this
      ensures |lots| == |old(lots)| && forall i :: 0 <= i < |lots| ==> lots[i] == AfterOrphans(old(lots)[i], keys)
      ensures forall i :: 0 <= i < |lots| ==> PausesOrphan(old(lots)[i], lots[i], keys)
      ensures forall a :: a in actions <==>
                a.lot < |lots| && a.kind == Pause
                && old(lots)[a.lot].auto && old(lots)[a.lot].status == OnSale && old(lots)[a.lot].key !in keys
    {
      actions := [];
      for k := 0 to |lots|
        invariant |lots| == |old(lots)|
        invariant forall i :: 0 <= i < |lots| ==> lots[i] == if i < k then AfterOrphans(old(lots)[i], keys) else old(lots)[i]
        invariant forall a :: a in actions <==> a.lot < k && a.kind == Pause && Orphaned(old(lots)[a.lot], keys)
      {
        if lots[k].auto && lots[k].key !in keys && lots[k].status == OnSale {
          lots := lots[k := lots[k].(status := OffSale, live := false, reason := Some(NoConfig))];
          actions := actions + [LotAction(k, Pause)];
        }
      }
    }

    method FindLot(key: ConfigKey) returns (i: nat)
      requires DistinctKeys(lots)
      ensures i <= |lots|
      ensures i < |lots| ==> lots[i].key == key && lots[i].auto && !lots[i].status.Deleted?
      ensures i == |lots| ==> forall j :: 0 <= j < |lots| ==> lots[j].key != key || !lots[j].auto || lots[j].status.Deleted?
    {
      i := 0;
      while i < |lots| && !(lots[i].key == key && lots[i].auto && lots[i].status != Deleted)
        invariant i <= |lots|
        invariant forall j :: 0 <= j < i ==> lots[j].key != key || !lots[j].auto || lots[j].status.Deleted?
      {
        i := i + 1;
      }
    }

    /** The branches for a lot that exists. */
    method ReconcileLot(i: LotId, m: Matrix, refreshStock: bool) returns (kind: Option<Kind>)
      requires i < |lots| && (lots[i].bound || (AutoPaused(lots[i]) && lots[i].reason == Some(PublishPending)))
      requires !lots[i].status.Deleted?
      modifies this
      ensures lots == old(lots)[i := AfterMatrix(old(lots)[i], m, refreshStock)]
      ensures kind == MatrixKind(old(lots)[i], m, refreshStock)
      ensures |lots| == |old(lots)| && AppliesMatrix(old(lots)[i], lots[i], m, refreshStock)
      ensures ReportsMatrix(old(lots)[i], kind, m, refreshStock)
    {
      MatrixLaw(lots[i], m, refreshStock);
      var l := lots[i];
      if m.content == None {
        if l.status == OnSale {
          lots := lots[i := l.(live := false, status := OffSale, reason := Some(TemplateError))];
          return Some(Pause);
        }
        lots := lots[i := l];
        return None;
      }
      var changed := l.content != m.content.value;
      l := l.(content := m.content.value);
      if m.capacity && AutoPaused(l) {
        if l.reason == Some(PublishPending) {
          l := l.(bound := true, synced := true, live := false);
          l := l.(live := true, status := OnSale, reason := None);
        } else {
          // a full save, or an activation that saves first when the marker is missing
          l := l.(synced := true, live := true, status := OnSale, reason := None);
        }
        kind := Some(Activate);
      } else if m.capacity && l.status == OnSale {
        if changed || refreshStock {
          l := l.(synced := true, live := true);
        }
        kind := Some(if changed || refreshStock then Update else NoChange);
      } else if !m.capacity && l.status == OnSale {
        if changed || refreshStock {
          l := l.(synced := true);
        }
        l := l.(live := false, status := OffSale, reason := Some(NoAccount));
        kind := Some(Pause);
      } else {
        if (changed || refreshStock) && l.bound {
          l := l.(synced := true, live := false);
        }
        kind := Some(if changed || refreshStock then Update else NoChange);
      }
      lots := lots[i := l];
    }

    method ReconcileMatrices(ms: seq<Matrix>, refreshStock: bool) returns (actions: seq<LotAction>)
      requires Consistent(lots, ms)
      modifies this
      ensures Extended(old(lots), lots, ms, refreshStock)
      ensures Reported(old(lots), |lots|, actions, ms, refreshStock)
    {
      actions := [];
      for k := 0 to |ms|
        invariant Extended(old(lots), lots, ms[..k], refreshStock)
        invariant Reported(old(lots), |lots|, actions, ms[..k], refreshStock)
      {
        var m := ms[k];
        assert m in ms && m.key in Keys(ms);
        TakeOne(old(lots), lots, ms, k, refreshStock);
        var i := FindLot(m.key);
        if i == |lots| {
          NewExtends(old(lots), lots, ms, k, refreshStock);
          NewReported(old(lots), |lots|, actions, ms, k, refreshStock);
          if m.capacity && m.content.Some? {
            lots := lots + [NewLot(m)];
            actions := actions + [LotAction(i, Create)];
          }
        } else {
          OldExtends(old(lots), lots, ms, k, i, refreshStock);
          OldReported(old(lots), |lots|, actions, ms, k, i, refreshStock);
          assert old(lots)[i] in old(lots);
          var kind := ReconcileLot(i, m, refreshStock);
          if kind.Some? {
            actions := actions + [LotAction(i, kind.value)];
          }
        }
      }
      assert ms[..|ms|] == ms;
    }

    /** One run; without a configured node no matrix row is applied. */
    method Run(node: int, ms: seq<Matrix>, refreshStock: bool) returns (actions: seq<LotAction>)
      requires Consistent(lots, ms)
      modifies this
      ensures node > 0 ==> IsReconciled(old(lots), lots, ms, refreshStock)
      ensures node > 0 ==> RunReported(old(lots), |lots|, actions, ms, refreshStock)
      ensures node <= 0 ==> |lots| == |old(lots)| && forall i :: 0 <= i < |lots| ==> lots[i] == AfterMarkers(AfterCatalog(old(lots)[i]))
    {
      actions := PauseCatalogInvalid();
      var marked := SyncMissingMarkers();
      actions := actions + marked;
      if node <= 0 {
        return;
      }
      var orphaned := PauseOrphans(Keys(ms));
      actions := actions + orphaned;
      PassesKeepConsistent(old(lots), lots, ms);
      ghost var before := lots;
      var matched := ReconcileMatrices(ms, refreshStock);
      actions := actions + matched;
      ExtendedIsReconciled(old(lots), before, lots, ms, refreshStock);
    }
  }

  // ---- What it means ----------------------------------------------------------------------------

  /** The passes of a run in their order on one lot: catalog, marker, orphan, and the row of its configuration. */
  ghost predicate RunsOver(l: Lot, l1: Lot, l2: Lot, l3: Lot, l': Lot, ms: seq<Matrix>, refreshStock: bool) {
    && PausesInvalid(l, l1) && MarksAgain(l1, l2) && PausesOrphan(l2, l3, set m | m in ms :: m.key)
    && (forall m :: m in ms && m.key == l.key ==> AppliesMatrix(l3, l', m, refreshStock))
    && ((forall m :: m in ms ==> m.key != l.key) ==> l' == l3)
  }

  lemma RunLaw(lots: seq<Lot>, lots': seq<Lot>, ms: seq<Matrix>, refreshStock: bool, i: LotId)
    requires Consistent(lots, ms) && IsReconciled(lots, lots', ms, refreshStock) && i < |lots|
    ensures exists l1, l2, l3 :: RunsOver(lots[i], l1, l2, l3, lots'[i], ms, refreshStock)
  {
    var l := lots[i];
    var l1 := AfterCatalog(l);
    var l2 := AfterMarkers(l1);
    var l3 := AfterOrphans(l2, Keys(ms));
    PassLaw(l, Keys(ms));
    PassLaw(l1, Keys(ms));
    PassLaw(l2, Keys(ms));
    assert l3.key == l.key;
    forall m | m in ms && m.key == l.key
      ensures AppliesMatrix(l3, lots'[i], m, refreshStock)
    {
      assert MatrixFor(ms, l.key) == Some(m);
      MatrixLaw(l3, m, refreshStock);
    }
    assert RunsOver(l, l1, l2, l3, lots'[i], ms, refreshStock);
  }

  /** After a run a lot of the automation is on sale exactly when its configuration is in the loaded matrix,
      has an account, renders, and no operator had paused it. */
  lemma OnSaleExactly(lots: seq<Lot>, lots': seq<Lot>, ms: seq<Matrix>, refreshStock: bool, i: LotId)
    requires Consistent(lots, ms) && IsReconciled(lots, lots', ms, refreshStock)
    requires i < |lots'| && lots'[i].auto && !lots'[i].status.Deleted?
    ensures lots'[i].status.OnSale? <==>
              && (exists m :: m in ms && m.key == lots'[i].key && m.capacity && m.content.Some?)
              && !(i < |lots| && OperatorPaused(lots[i]))
  {
    var key := lots'[i].key;
    var m := MatrixFor(ms, key);
    if m.Some? {
      assert forall p :: p in ms && p.key == key ==> p == m.value;
    }
    if i < |lots| {
      LotRun(lots, ms, refreshStock, i);
    } else {
      assert CreatedFrom(lots, lots'[i], ms);
    }
  }

  /** One run on one lot that was there before. */
  lemma LotRun(lots: seq<Lot>, ms: seq<Matrix>, refreshStock: bool, i: LotId)
    requires Consistent(lots, ms) && i < |lots|
    ensures var l, l', m := lots[i], Reconciled(lots[i], ms, refreshStock), MatrixFor(ms, lots[i].key);
            && l'.key == l.key && SettledLot(l', ms) && PendingIfUnbound(l') && (l.key in Keys(ms) ==> InScope(l'))
            && (l'.auto && !l'.status.Deleted? ==>
                  (l'.status.OnSale? <==> m.Some? && m.value.capacity && m.value.content.Some? && !OperatorPaused(l)))
  {
    var l := lots[i];
    assert l in lots;
    assert MatrixFor(ms, l.key).Some? <==> l.key in Keys(ms);
    PassesOnLot(l, Keys(ms));
    if l.key in Keys(ms) {
      MatrixOnLot(BeforeMatrices(l, Keys(ms)), MatrixFor(ms, l.key).value, refreshStock);
    }
  }

  lemma PassesOnLot(l: Lot, keys: set<ConfigKey>)
    requires PendingIfUnbound(l) && (l.key in keys ==> InScope(l))
    ensures var b := BeforeMatrices(l, keys);
            && b.key == l.key && b.auto == l.auto && PendingIfUnbound(b) && (l.key in keys ==> InScope(b))
            && !CatalogInvalid(b) && !MarkerMissing(b) && !Orphaned(b, keys)
            && (l.key in keys ==> b.status == l.status && b.reason == l.reason && b.content == l.content)
  {
  }

  lemma MatrixOnLot(b: Lot, m: Matrix, refreshStock: bool)
    requires InScope(b) && PendingIfUnbound(b) && !MarkerMissing(b)
    ensures var l := AfterMatrix(b, m, refreshStock);
            && l.key == b.key && InScope(l) && PendingIfUnbound(l) && !MarkerMissing(l)
            && (l.status.OnSale? <==> m.capacity && m.content.Some? && !OperatorPaused(b))
            && (m.content.Some? ==> l.content == m.content.value && (m.capacity ==> !AutoPaused(l)))
  {
  }

  /** Nothing left for a run to do. */
  ghost predicate Settled(lots: seq<Lot>, ms: seq<Matrix>) {
    && (forall i :: 0 <= i < |lots| ==> SettledLot(lots[i], ms))
    && EverySellable(lots, ms)
  }

  predicate SettledLot(l: Lot, ms: seq<Matrix>) {
    && !CatalogInvalid(l) && !MarkerMissing(l) && !Orphaned(l, Keys(ms))
    && var m := MatrixFor(ms, l.key);
    m.Some? ==>
      if m.value.content.None? then !l.status.OnSale?
      else l.content == m.value.content.value && (if m.value.capacity then !AutoPaused(l) else !l.status.OnSale?)
  }

  lemma RunSettles(lots: seq<Lot>, lots': seq<Lot>, ms: seq<Matrix>, refreshStock: bool)
    requires Consistent(lots, ms) && IsReconciled(lots, lots', ms, refreshStock)
    ensures Settled(lots', ms) && Consistent(lots', ms)
  {
    forall i | 0 <= i < |lots'|
      ensures SettledLot(lots'[i], ms) && PendingIfUnbound(lots'[i]) && (lots'[i].key in Keys(ms) ==> InScope(lots'[i]))
    {
      if i < |lots| {
        LotRun(lots, ms, refreshStock, i);
      } else {
        NewLotSettles(lots, lots'[i], ms);
      }
    }
  }

  lemma NewLotSettles(lots: seq<Lot>, l: Lot, ms: seq<Matrix>)
    requires CreatedFrom(lots, l, ms) && forall j, k :: 0 <= j < k < |ms| ==> ms[j].key != ms[k].key
    ensures SettledLot(l, ms) && PendingIfUnbound(l) && InScope(l)
  {
  }

  lemma CreatedAt(lots: seq<Lot>, lots': seq<Lot>, ms: seq<Matrix>, refreshStock: bool, i: LotId)
    requires IsReconciled(lots, lots', ms, refreshStock) && i >= |lots|
    ensures i < |lots'| ==> CreatedFrom(lots, lots'[i], ms)
  {
  }

  /** A second run on unchanged inputs writes nothing and reports only that nothing changed. */
  lemma SecondRunIsQuiet(lots: seq<Lot>, lots1: seq<Lot>, lots2: seq<Lot>, ms: seq<Matrix>, refreshStock: bool, actions: seq<LotAction>)
    requires Consistent(lots, ms) && IsReconciled(lots, lots1, ms, refreshStock)
    requires IsReconciled(lots1, lots2, ms, false) && RunReported(lots1, |lots2|, actions, ms, false)
    ensures lots2 == lots1 && forall a :: a in actions ==> a.kind.NoChange?
  {
    RunSettles(lots, lots1, ms, refreshStock);
    forall i | 0 <= i < |lots1|
      ensures BeforeMatrices(lots1[i], Keys(ms)) == lots1[i] && lots2[i] == lots1[i]
    {
      assert SettledLot(lots1[i], ms);
    }
    assert forall l :: !CreatedFrom(lots1, l, ms);
    CreatedAt(lots1, lots2, ms, false, |lots1|);
    forall a | a in actions
      ensures a.kind.NoChange?
    {
      assert a == LotAction(a.lot, a.kind);
      assert SettledLot(lots1[a.lot], ms);
    }
  }

  // ---- The remote side --------------------------------------------------------------------------

  predicate Mirrored(l: Lot) { l.bound ==> (l.live <==> l.status.OnSale?) }

  /** The run had no reason to rewrite the offer of this lot, which is off sale. */
  predicate Skipped(l: Lot, ms: seq<Matrix>, refreshStock: bool) {
    var m := MatrixFor(ms, l.key);
    m.None? || m.value.content.None? || (!m.value.capacity && l.content == m.value.content.value && !refreshStock)
  }

  /** A run leaves the remote offer of a lot active exactly when the lot is on sale, except in one case: the
      process died between activating a new offer and committing that, and the next run skips the lot,
      because its account is gone, its template broke, or its configuration was removed. */
  lemma MirroredExactly(l: Lot, ms: seq<Matrix>, refreshStock: bool)
    requires !l.status.Deleted? && l.bound && l.synced
    requires l.key in Keys(ms) ==> l.auto && l.catalogOk
    requires Mirrored(l) || (l.live && AutoPaused(l) && l.reason == Some(PublishPending))
    ensures Mirrored(Reconciled(l, ms, refreshStock)) <==> (Mirrored(l) || !Skipped(l, ms, refreshStock))
  {
  }
}
