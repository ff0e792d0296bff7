/**
 * Which slots can go back to an older generation, and when exactly: seen over a whole run, and seen
 * from one moment of it. A call writes its slots one after another, and others may write in between.
 */
module RefreshSlots {
  import opened Prelude
  import opened Tokens
  import opened RefreshCall
  import opened RefreshProtocol
  import opened RefreshRotation
  import Safety = RefreshSafety

  predicate Slot(s: TokenType) {
    s in {AccessType, RefreshType, IdType}
  }

  /** Both values were issued, `v` in an older generation. */
  predicate Older(p: Provider, v: string, u: string) {
    v in p.stamp && u in p.stamp && p.stamp[v] < p.stamp[u]
  }

  /** The slot of `later` holds a token older than that of `w`. */
  predicate Back(w: World, later: World, s: TokenType) {
    s in w.slots && s in later.slots && Older(later.provider, later.slots[s].value, w.slots[s].value)
  }

  ghost predicate GoesBack(ws: seq<World>, s: TokenType) {
    exists i, j :: 0 <= i < j < |ws| && Back(ws[i], ws[j], s)
  }

  predicate Grants(cfg: Config, w: World, l: Label) {
    && l.Run? && l.pid in w.procs && w.procs[l.pid].pc.Exchange?
    && Contacts(cfg, w.procs[l.pid].pc) && !l.reply.Refused?
  }

  // ---- Seen over a whole run --------------------------------------------------------------

  /** What a step puts into a slot: a call's write, or a login's. */
  function Put(cfg: Config, w: World, l: Label, s: TokenType): Option<AuthToken> {
    match l
    case Login(token) => if token.typ == s then Some(token) else None
    case Run(pid, ok, reply) =>
      if pid !in w.procs then None
      else
        var write := MoveOf(cfg, w, w.procs[pid], ok, reply).write;
        if write.Some? && write.value.typ == s then write else None
    case _ => None
  }

  lemma StepPuts(cfg: Config, w: World, l: Label, w': World, s: TokenType)
    requires Next(cfg, w, l, w')
    ensures Put(cfg, w, l, s).Some? ==> s in w'.slots && w'.slots[s] == Put(cfg, w, l, s).value
    ensures Put(cfg, w, l, s).None? && s in w'.slots ==> s in w.slots && w'.slots[s] == w.slots[s]
  {
  }

  lemma StepKeepsStamps(cfg: Config, w: World, l: Label, w': World)
    requires Next(cfg, w, l, w')
    ensures StampsKept(w.provider, w'.provider)
  {
  }

  lemma {:induction false} StampsAlongRun(cfg: Config, ws: seq<World>, ls: seq<Label>, i: nat, j: nat)
    requires IsRun(cfg, ws, ls) && i <= j <= |ls|
    ensures StampsKept(ws[i].provider, ws[j].provider)
    decreases j
  {
    if i < j {
      StampsAlongRun(cfg, ws, ls, i, j - 1);
      StepKeepsStamps(cfg, ws[j - 1], ls[j - 1], ws[j]);
    }
  }

  /** The slot at `j` is as it was at `i`, or was put there in between. */
  ghost predicate SlotSince(cfg: Config, ws: seq<World>, ls: seq<Label>, i: nat, j: nat, s: TokenType)
    requires |ws| == |ls| + 1 && i <= j <= |ls|
  {
    s in ws[j].slots ==>
      || (s in ws[i].slots && ws[j].slots[s] == ws[i].slots[s])
      || exists k :: i <= k < j && Put(cfg, ws[k], ls[k], s) == Some(ws[j].slots[s])
  }

  lemma {:induction false} SlotAlongRun(cfg: Config, ws: seq<World>, ls: seq<Label>, i: nat, j: nat, s: TokenType)
    requires IsRun(cfg, ws, ls) && i <= j <= |ls|
    ensures SlotSince(cfg, ws, ls, i, j, s)
    decreases j
  {
    if i < j {
      SlotAlongRun(cfg, ws, ls, i, j - 1, s);
      StepPuts(cfg, ws[j - 1], ls[j - 1], ws[j], s);
    }
  }

  /** Before step `j` the slot held, or was given, a token newer than `v`. */
  ghost predicate NewerBefore(cfg: Config, ws: seq<World>, ls: seq<Label>, j: nat, s: TokenType, v: string)
    requires |ws| == |ls| + 1 && j <= |ls|
  {
    || (s in ws[0].slots && Older(ws[|ls|].provider, v, ws[0].slots[s].value))
    || exists i :: 0 <= i < j && Put(cfg, ws[i], ls[i], s).Some?
         && Older(ws[|ls|].provider, v, Put(cfg, ws[i], ls[i], s).value.value)
  }

  /** Step `j` puts a token into the slot after a newer one. */
  ghost predicate LatePut(cfg: Config, ws: seq<World>, ls: seq<Label>, j: nat, s: TokenType)
    requires |ws| == |ls| + 1 && j < |ls|
  {
    var put := Put(cfg, ws[j], ls[j], s);
    put.Some? && NewerBefore(cfg, ws, ls, j, s, put.value.value)
  }

  ghost predicate OutOfOrder(cfg: Config, ws: seq<World>, ls: seq<Label>, s: TokenType)
    requires |ws| == |ls| + 1
  {
    exists j :: 0 <= j < |ls| && LatePut(cfg, ws, ls, j, s)
  }

  /** A run from nothing but genuine slots, its logins all through one provider. */
  ghost predicate GenuineRun(cfg: Config, owner: string, ws: seq<World>, ls: seq<Label>) {
    WellKeyed(cfg.clients) && IsRun(cfg, ws, ls) && Safety.Start(cfg, owner, ws[0]) && Safety.LoginsFrom(owner, ls)
  }

  lemma SlotIsIssued(
    cfg: Config, owner: string, ws: seq<World>, ls: seq<Label>, i: nat, j: nat, s: TokenType)
    requires GenuineRun(cfg, owner, ws, ls) && Slot(s) && i <= j <= |ls| && s in ws[i].slots
    ensures
      var v := ws[i].slots[s].value;
      v in ws[j].provider.stamp && v in ws[|ls|].provider.stamp && ws[|ls|].provider.stamp[v] == ws[j].provider.stamp[v]
  {
    Safety.SafeAlongRun(cfg, owner, ws, ls, i);
    assert Safety.Genuine(cfg, owner, ws[i].provider, ws[i].slots[s], s);
    StampsAlongRun(cfg, ws, ls, i, j);
    StampsAlongRun(cfg, ws, ls, j, |ls|);
  }

  lemma BackIsLate(cfg: Config, ws: seq<World>, ls: seq<Label>, i: nat, j: nat, s: TokenType)
    requires IsRun(cfg, ws, ls) && i < j <= |ls| && Back(ws[i], ws[j], s)
    ensures OutOfOrder(cfg, ws, ls, s)
  {
    SlotAlongRun(cfg, ws, ls, i, j, s);
    SlotAlongRun(cfg, ws, ls, 0, i, s);
    StampsAlongRun(cfg, ws, ls, j, |ls|);
    var k :| i <= k < j && Put(cfg, ws[k], ls[k], s) == Some(ws[j].slots[s]);
    assert LatePut(cfg, ws, ls, k, s);
  }

  lemma LateIsBack(cfg: Config, owner: string, ws: seq<World>, ls: seq<Label>, j: nat, s: TokenType)
    requires GenuineRun(cfg, owner, ws, ls) && Slot(s) && j < |ls| && LatePut(cfg, ws, ls, j, s)
    ensures GoesBack(ws, s)
  {
    var v := Put(cfg, ws[j], ls[j], s).value.value;
    StepPuts(cfg, ws[j], ls[j], ws[j + 1], s);
    SlotIsIssued(cfg, owner, ws, ls, j + 1, j + 1, s);
    if s in ws[0].slots && Older(ws[|ls|].provider, v, ws[0].slots[s].value) {
      SlotIsIssued(cfg, owner, ws, ls, 0, j + 1, s);
      assert Back(ws[0], ws[j + 1], s);
    } else {
      var i :| 0 <= i < j && Put(cfg, ws[i], ls[i], s).Some?
        && Older(ws[|ls|].provider, v, Put(cfg, ws[i], ls[i], s).value.value);
      StepPuts(cfg, ws[i], ls[i], ws[i + 1], s);
      SlotIsIssued(cfg, owner, ws, ls, i + 1, j + 1, s);
      assert Back(ws[i + 1], ws[j + 1], s);
    }
  }

  /**
   * Over a whole run, logins included: a slot goes back if and only if some token is put into it after
   * a newer one, whatever evictions and refused writes come in between.
   */
  lemma SlotGoesBackExactly(cfg: Config, owner: string, ws: seq<World>, ls: seq<Label>, s: TokenType)
    requires GenuineRun(cfg, owner, ws, ls) && Slot(s)
    ensures GoesBack(ws, s) <==> OutOfOrder(cfg, ws, ls, s)
  {
    if GoesBack(ws, s) {
      var i, j :| 0 <= i < j < |ws| && Back(ws[i], ws[j], s);
      BackIsLate(cfg, ws, ls, i, j, s);
    }
    if OutOfOrder(cfg, ws, ls, s) {
      var j :| 0 <= j < |ls| && LatePut(cfg, ws, ls, j, s);
      LateIsBack(cfg, owner, ws, ls, j, s);
    }
  }

  // ---- Seen from one moment ---------------------------------------------------------------

  /** The call has a token still to write into the slot. */
  predicate Pending(w: World, q: nat, s: TokenType) {
    q in w.procs && match w.procs[q].pc {
      case WriteAccess(_, issued) => s == AccessType || s == RefreshType || (s == IdType && issued.idToken.id != "")
      case WriteRefresh(_, issued) => s == RefreshType || (s == IdType && issued.idToken.id != "")
      case WriteId(_, _) => s == IdType
      case _ => false
    }
  }

  function PendingToken(w: World, q: nat, s: TokenType): AuthToken
    requires Pending(w, q, s)
  {
    var issued := w.procs[q].pc.issued;
    if s == AccessType then issued.access else if s == RefreshType then issued.refresh else issued.idToken
  }

  predicate BehindSlot(w: World, q: nat, s: TokenType) {
    Pending(w, q, s) && s in w.slots && Older(w.provider, PendingToken(w, q, s).value, w.slots[s].value)
  }

  predicate BehindCall(w: World, q: nat, p: nat, s: TokenType) {
    && Pending(w, q, s) && Pending(w, p, s)
    && Older(w.provider, PendingToken(w, q, s).value, PendingToken(w, p, s).value)
  }

  /** Some call has a token still to write that is older than the slot's, or than another one still to write. */
  ghost predicate Overtaken(w: World, s: TokenType) {
    (exists q :: BehindSlot(w, q, s)) || (exists q, p :: BehindCall(w, q, p, s))
  }

  /** A continuation without logins and without further grants. */
  ghost predicate Quiet(cfg: Config, ws: seq<World>, ls: seq<Label>) {
    IsRun(cfg, ws, ls) && NoLogin(ls) && forall i :: 0 <= i < |ls| ==> !Grants(cfg, ws[i], ls[i])
  }

  ghost predicate MayGoBack(cfg: Config, w: World, s: TokenType) {
    exists ws, ls :: Quiet(cfg, ws, ls) && ws[0] == w && GoesBack(ws, s)
  }

  /** What a call puts into a slot it had still to write. */
  lemma PutWasPending(cfg: Config, w: World, l: Label, s: TokenType)
    requires Enabled(cfg, w, l) && l.Run? && Slot(s) && Put(cfg, w, l, s).Some?
    ensures Pending(w, l.pid, s) && PendingToken(w, l.pid, s) == Put(cfg, w, l, s).value
  {
  }

  /** A step that grants nothing brings no new token up for its call. */
  lemma MovePending(cfg: Config, w: World, l: Label, w': World, s: TokenType)
    requires Next(cfg, w, l, w') && l.Run? && !Grants(cfg, w, l) && Slot(s)
    ensures w'.provider == w.provider
    ensures Pending(w', l.pid, s) ==> Pending(w, l.pid, s) && PendingToken(w', l.pid, s) == PendingToken(w, l.pid, s)
  {
  }

  /** A quiet step issues nothing, brings no new token up, and writes only one that was up. */
  lemma QuietStep(cfg: Config, w: World, l: Label, w': World, s: TokenType)
    requires Next(cfg, w, l, w') && !l.Login? && !Grants(cfg, w, l) && Slot(s)
    ensures w'.provider == w.provider
    ensures forall q :: Pending(w', q, s) ==> Pending(w, q, s) && PendingToken(w', q, s) == PendingToken(w, q, s)
    ensures s in w'.slots ==>
      || (s in w.slots && w'.slots[s] == w.slots[s])
      || exists q :: Pending(w, q, s) && PendingToken(w, q, s) == w'.slots[s]
  {
    StepPuts(cfg, w, l, w', s);
    if l.Run? {
      MovePending(cfg, w, l, w', s);
      assert forall q :: q != l.pid && q in w'.procs ==> q in w.procs && w'.procs[q] == w.procs[q];
      if Put(cfg, w, l, s).Some? {
        PutWasPending(cfg, w, l, s);
      }
    }
  }

  lemma QuietStepOvertakesNobody(cfg: Config, w: World, l: Label, w': World, s: TokenType)
    requires Next(cfg, w, l, w') && !l.Login? && !Grants(cfg, w, l) && Slot(s) && !Overtaken(w, s)
    ensures !Overtaken(w', s)
  {
    QuietStep(cfg, w, l, w', s);
    forall q
      ensures !BehindSlot(w', q, s)
    {
      assert !BehindSlot(w, q, s);
      if s in w'.slots && !(s in w.slots && w'.slots[s] == w.slots[s]) {
        var p :| Pending(w, p, s) && PendingToken(w, p, s) == w'.slots[s];
        assert !BehindCall(w, q, p, s);
      }
    }
    forall q, p
      ensures !BehindCall(w', q, p, s)
    {
      assert !BehindCall(w, q, p, s);
    }
  }

  /** The slot and everything still to be written is of generation `n` at least. */
  ghost predicate AtLeast(w: World, n: nat, s: TokenType) {
    && (s in w.slots ==> w.slots[s].value in w.provider.stamp && n <= w.provider.stamp[w.slots[s].value])
    && forall q :: Pending(w, q, s) ==>
         && PendingToken(w, q, s).value in w.provider.stamp
         && n <= w.provider.stamp[PendingToken(w, q, s).value]
  }

  lemma {:induction false} QuietStaysAtLeast(
    cfg: Config, ws: seq<World>, ls: seq<Label>, i: nat, j: nat, n: nat, s: TokenType)
    requires Quiet(cfg, ws, ls) && Slot(s) && i <= j <= |ls| && AtLeast(ws[i], n, s)
    ensures AtLeast(ws[j], n, s) && ws[j].provider == ws[i].provider
    decreases j
  {
    if i < j {
      QuietStaysAtLeast(cfg, ws, ls, i, j - 1, n, s);
      QuietStep(cfg, ws[j - 1], ls[j - 1], ws[j], s);
    }
  }

  lemma {:induction false} QuietStaysSafe(
    cfg: Config, owner: string, ws: seq<World>, ls: seq<Label>, n: nat, s: TokenType)
    requires WellKeyed(cfg.clients) && Quiet(cfg, ws, ls) && Slot(s) && n <= |ls| && Safety.Safe(cfg, owner, ws[0])
    ensures Safety.Safe(cfg, owner, ws[n])
    ensures !Overtaken(ws[0], s) ==> !Overtaken(ws[n], s)
  {
    if n > 0 {
      QuietStaysSafe(cfg, owner, ws, ls, n - 1, s);
      Safety.StepStaysSafe(cfg, owner, ws[n - 1], ls[n - 1], ws[n]);
      if !Overtaken(ws[0], s) {
        QuietStepOvertakesNobody(cfg, ws[n - 1], ls[n - 1], ws[n], s);
      }
    }
  }

  lemma PendingIsGenuine(cfg: Config, owner: string, w: World, q: nat, s: TokenType)
    requires Safety.Safe(cfg, owner, w) && Slot(s) && Pending(w, q, s)
    ensures PendingToken(w, q, s).value in w.provider.stamp && PendingToken(w, q, s).typ == s
    ensures w.procs[q].pc.issued.access.typ == AccessType && w.procs[q].pc.issued.refresh.typ == RefreshType
  {
    assert Safety.ProcGenuine(cfg, owner, w.provider, w.procs[q]);
  }

  lemma NotOvertakenStays(
    cfg: Config, owner: string, ws: seq<World>, ls: seq<Label>, i: nat, j: nat, s: TokenType)
    requires WellKeyed(cfg.clients) && Quiet(cfg, ws, ls) && Slot(s)
    requires Safety.Safe(cfg, owner, ws[0]) && !Overtaken(ws[0], s)
    requires i < j <= |ls| && s in ws[i].slots && s in ws[j].slots
    ensures !Back(ws[i], ws[j], s)
  {
    QuietStaysSafe(cfg, owner, ws, ls, i, s);
    var v := ws[i].slots[s].value;
    assert Safety.Genuine(cfg, owner, ws[i].provider, ws[i].slots[s], s);
    var n := ws[i].provider.stamp[v];
    forall q | Pending(ws[i], q, s)
      ensures PendingToken(ws[i], q, s).value in ws[i].provider.stamp
      ensures n <= ws[i].provider.stamp[PendingToken(ws[i], q, s).value]
    {
      PendingIsGenuine(cfg, owner, ws[i], q, s);
      assert !BehindSlot(ws[i], q, s);
    }
    QuietStaysAtLeast(cfg, ws, ls, i, j, n, s);
  }

  lemma Joined(cfg: Config, ws: seq<World>, ls: seq<Label>, us: seq<World>, ms: seq<Label>)
    requires IsRun(cfg, ws, ls) && IsRun(cfg, us, ms) && ws[|ls|] == us[0]
    ensures IsRun(cfg, ws + us[1..], ls + ms)
    ensures forall i :: 0 <= i < |ms| + 1 ==> (ws + us[1..])[|ls| + i] == us[i]
  {
    var all, labels := ws + us[1..], ls + ms;
    forall i | 0 <= i < |labels|
      ensures Next(cfg, all[i], labels[i], all[i + 1])
    {
      if i >= |ls| {
        assert all[i] == us[i - |ls|] && all[i + 1] == us[i - |ls| + 1] && labels[i] == ms[i - |ls|];
      }
    }
  }

  lemma QuietJoined(cfg: Config, ws: seq<World>, ls: seq<Label>, us: seq<World>, ms: seq<Label>)
    requires Quiet(cfg, ws, ls) && Quiet(cfg, us, ms) && ws[|ls|] == us[0]
    ensures Quiet(cfg, ws + us[1..], ls + ms)
    ensures forall i :: 0 <= i < |ms| + 1 ==> (ws + us[1..])[|ls| + i] == us[i]
  {
    Joined(cfg, ws, ls, us, ms);
    var all, labels := ws + us[1..], ls + ms;
    forall i | 0 <= i < |labels|
      ensures !Grants(cfg, all[i], labels[i]) && !labels[i].Login?
    {
      if i >= |ls| {
        assert all[i] == us[i - |ls|] && labels[i] == ms[i - |ls|];
      }
    }
  }

  /** The slot the call writes next. */
  predicate WritesNow(pc: Pc, s: TokenType) {
    (pc.WriteAccess? && s == AccessType) || (pc.WriteRefresh? && s == RefreshType) || (pc.WriteId? && s == IdType)
  }

  /** One write of a call with a token still to write into the slot. */
  lemma WritesOn(cfg: Config, owner: string, w: World, q: nat, s: TokenType) returns (w': World)
    requires Safety.Safe(cfg, owner, w) && Slot(s) && Pending(w, q, s)
    ensures Quiet(cfg, [w, w'], [Run(q, true, Refused)]) && w'.provider == w.provider
    ensures q in w'.procs && w'.procs == w.procs[q := w'.procs[q]]
    ensures WritesNow(w.procs[q].pc, s) ==> s in w'.slots && w'.slots[s] == PendingToken(w, q, s)
    ensures !WritesNow(w.procs[q].pc, s) ==>
      && Pending(w', q, s) && PendingToken(w', q, s) == PendingToken(w, q, s)
      && StepsLeft(w'.procs[q].pc) < StepsLeft(w.procs[q].pc)
  {
    PendingIsGenuine(cfg, owner, w, q, s);
    w' := Apply(cfg, w, Run(q, true, Refused));
    assert Next(cfg, w, Run(q, true, Refused), w');
  }

  /** Left alone, with a store that takes its writes, such a call gets its token into the slot. */
  lemma {:induction false} WritesThrough(cfg: Config, owner: string, w: World, q: nat, s: TokenType)
    returns (ws: seq<World>, ls: seq<Label>)
    requires WellKeyed(cfg.clients) && Safety.Safe(cfg, owner, w) && Slot(s) && Pending(w, q, s)
    ensures Quiet(cfg, ws, ls) && ws[0] == w && 0 < |ls|
    ensures
      var end := ws[|ls|];
      && end.provider == w.provider && s in end.slots && end.slots[s] == PendingToken(w, q, s)
      && q in end.procs && end.procs == w.procs[q := end.procs[q]]
    decreases StepsLeft(w.procs[q].pc)
  {
    var w' := WritesOn(cfg, owner, w, q, s);
    ws, ls := [w, w'], [Run(q, true, Refused)];
    if !WritesNow(w.procs[q].pc, s) {
      assert Next(cfg, ws[0], ls[0], ws[1]);
      Safety.StepStaysSafe(cfg, owner, w, ls[0], w');
      var us, ms := WritesThrough(cfg, owner, w', q, s);
      QuietJoined(cfg, ws, ls, us, ms);
      ws, ls := ws + us[1..], ls + ms;
      assert ws[|ls|] == us[|ms|];
    }
  }

  lemma OvertakenBySlot(cfg: Config, owner: string, w: World, q: nat, s: TokenType)
    requires WellKeyed(cfg.clients) && Safety.Safe(cfg, owner, w) && Slot(s) && BehindSlot(w, q, s)
    ensures MayGoBack(cfg, w, s)
  {
    var ws, ls := WritesThrough(cfg, owner, w, q, s);
    assert Back(ws[0], ws[|ls|], s);
  }

  lemma OvertakenByCall(cfg: Config, owner: string, w: World, q: nat, p: nat, s: TokenType)
    requires WellKeyed(cfg.clients) && Safety.Safe(cfg, owner, w) && Slot(s) && BehindCall(w, q, p, s)
    ensures MayGoBack(cfg, w, s)
  {
    var ws, ls := WritesThrough(cfg, owner, w, p, s);
    QuietStaysSafe(cfg, owner, ws, ls, |ls|, s);
    var mid := ws[|ls|];
    assert q != p && mid.procs[q] == w.procs[q];
    var us, ms := WritesThrough(cfg, owner, mid, q, s);
    QuietJoined(cfg, ws, ls, us, ms);
    var all := ws + us[1..];
    assert all[|ls| + 0] == mid && all[|ls| + |ms|] == us[|ms|] && all[0] == w;
    assert Back(mid, us[|ms|], s);
    assert Back(all[|ls|], all[|ls| + |ms|], s);
  }

  /**
   * From a moment on: some continuation without logins and further grants takes a slot back if and only
   * if some call has a token still to write into it that is older than the slot's, or than another one
   * still to write.
   */
  lemma MayGoBackExactly(cfg: Config, owner: string, w: World, s: TokenType)
    requires WellKeyed(cfg.clients) && Safety.Safe(cfg, owner, w) && Slot(s)
    ensures MayGoBack(cfg, w, s) <==> Overtaken(w, s)
  {
    if Overtaken(w, s) {
      if exists q :: BehindSlot(w, q, s) {
        var q :| BehindSlot(w, q, s);
        OvertakenBySlot(cfg, owner, w, q, s);
      } else {
        var q, p :| BehindCall(w, q, p, s);
        OvertakenByCall(cfg, owner, w, q, p, s);
      }
    } else if MayGoBack(cfg, w, s) {
      var ws: seq<World>, ls: seq<Label> :| Quiet(cfg, ws, ls) && ws[0] == w && GoesBack(ws, s);
      var i, j :| 0 <= i < j < |ws| && Back(ws[i], ws[j], s);
      NotOvertakenStays(cfg, owner, ws, ls, i, j, s);
    }
  }

  /** So it is at every moment of every run, logins included, for every slot and every kind of provider. */
  lemma SlotMayGoBack(cfg: Config, owner: string, ws: seq<World>, ls: seq<Label>, n: nat, s: TokenType)
    requires GenuineRun(cfg, owner, ws, ls) && n <= |ls| && Slot(s)
    ensures MayGoBack(cfg, ws[n], s) <==> Overtaken(ws[n], s)
  {
    Safety.SafeAlongRun(cfg, owner, ws, ls, n);
    MayGoBackExactly(cfg, owner, ws[n], s);
  }

  // ---- Rotation -----------------------------------------------------------------------------

  lemma HolderIsNewest(w: World, v: string, dropped: bool, q: nat, s: TokenType)
    requires Inv(w, v, dropped) && s in {AccessType, RefreshType} && Pending(w, q, s)
    ensures Holds(w, q)
    ensures PendingToken(w, q, s).value in w.provider.stamp
    ensures w.provider.stamp[PendingToken(w, q, s).value] == w.provider.count
  {
    assert PcIssued(w.provider, v, w.procs[q].pc);
  }

  /** With a rotating provider nobody is ever overtaken at the access or the refresh slot. */
  lemma RotationNeverOvertakes(
    cfg: Config, ws: seq<World>, ls: seq<Label>, start: string, n: nat, s: TokenType)
    requires IsRun(cfg, ws, ls) && NoLogin(ls) && ws[0].provider.policy.Rotates? && Start(ws[0], start)
    requires n <= |ls| && s in {AccessType, RefreshType}
    ensures !Overtaken(ws[n], s)
  {
    var w := ws[n];
    var v := InvAlongRun(cfg, ws, ls, start, n);
    var dropped := DroppedBefore(cfg, ws, ls, n);
    forall q
      ensures !BehindSlot(w, q, s)
    {
      if Pending(w, q, s) {
        HolderIsNewest(w, v, dropped, q, s);
      }
    }
    forall q, p
      ensures !BehindCall(w, q, p, s)
    {
      if Pending(w, q, s) {
        HolderIsNewest(w, v, dropped, q, s);
      }
    }
  }

  ghost predicate IdWritePending(w: World) {
    exists q :: q in w.procs && w.procs[q].pc.WriteId?
  }

  /** No refresh is granted while a call is at its last write. */
  ghost predicate Spaced(cfg: Config, ws: seq<World>, ls: seq<Label>)
    requires |ws| == |ls| + 1
  {
    forall i :: 0 <= i < |ls| && Grants(cfg, ws[i], ls[i]) ==> !IdWritePending(ws[i])
  }

  /** Whatever ID token is still to be written is of the newest generation. */
  ghost predicate NewestPending(w: World) {
    forall q :: Pending(w, q, IdType) ==>
      && PendingToken(w, q, IdType).value in w.provider.stamp
      && w.provider.stamp[PendingToken(w, q, IdType).value] == w.provider.count
  }

  lemma GrantKeepsNewest(cfg: Config, w: World, l: Label, w': World, v: string, dropped: bool)
    requires Next(cfg, w, l, w') && Inv(w, v, dropped) && Grants(cfg, w, l) && !IdWritePending(w)
    ensures NewestPending(w')
  {
    GrantFindsSlotFull(w, l.pid, v, dropped);
    forall q | q in w.procs
      ensures !Pending(w, q, IdType)
    {
      assert !Holds(w, q) && !w.procs[q].pc.WriteId?;
    }
  }

  lemma {:induction false} NewestAlongRun(cfg: Config, ws: seq<World>, ls: seq<Label>, start: string, n: nat)
    requires IsRun(cfg, ws, ls) && NoLogin(ls) && ws[0].provider.policy.Rotates? && Start(ws[0], start)
    requires Spaced(cfg, ws, ls) && n <= |ls|
    ensures NewestPending(ws[n])
  {
    if n > 0 {
      NewestAlongRun(cfg, ws, ls, start, n - 1);
      var v := InvAlongRun(cfg, ws, ls, start, n - 1);
      if Grants(cfg, ws[n - 1], ls[n - 1]) {
        GrantKeepsNewest(cfg, ws[n - 1], ls[n - 1], ws[n], v, DroppedBefore(cfg, ws, ls, n - 1));
      } else {
        QuietStep(cfg, ws[n - 1], ls[n - 1], ws[n], IdType);
      }
    }
  }

  /** What a run puts into the ID slot is of the newest generation at that step. */
  lemma PutIsNewest(cfg: Config, ws: seq<World>, ls: seq<Label>, start: string, k: nat)
    requires IsRun(cfg, ws, ls) && NoLogin(ls) && ws[0].provider.policy.Rotates? && Start(ws[0], start)
    requires Spaced(cfg, ws, ls) && k < |ls| && Put(cfg, ws[k], ls[k], IdType).Some?
    ensures
      var v := Put(cfg, ws[k], ls[k], IdType).value.value;
      v in ws[k].provider.stamp && ws[k].provider.stamp[v] == ws[k].provider.count
  {
    NewestAlongRun(cfg, ws, ls, start, k);
    var v := InvAlongRun(cfg, ws, ls, start, k);
    assert Next(cfg, ws[k], ls[k], ws[k + 1]) && PcIssued(ws[k].provider, v, ws[k].procs[ls[k].pid].pc);
    assert Pending(ws[k], ls[k].pid, IdType);
  }

  /** And nobody at the ID slot either, if refreshes are so spaced: then it never goes back. */
  lemma IdSlotNeverGoesBack(cfg: Config, ws: seq<World>, ls: seq<Label>, start: string)
    requires IsRun(cfg, ws, ls) && NoLogin(ls) && ws[0].provider.policy.Rotates? && Start(ws[0], start)
    requires Spaced(cfg, ws, ls)
    ensures !GoesBack(ws, IdType)
  {
    forall j | 0 <= j < |ls|
      ensures !LatePut(cfg, ws, ls, j, IdType)
    {
      if Put(cfg, ws[j], ls[j], IdType).Some? {
        PutIsNewest(cfg, ws, ls, start, j);
        StampsAlongRun(cfg, ws, ls, j, |ls|);
        StampsAlongRun(cfg, ws, ls, 0, j);
        forall i | 0 <= i < j && Put(cfg, ws[i], ls[i], IdType).Some?
          ensures !Older(ws[|ls|].provider, Put(cfg, ws[j], ls[j], IdType).value.value,
                         Put(cfg, ws[i], ls[i], IdType).value.value)
        {
          PutIsNewest(cfg, ws, ls, start, i);
          StampsAlongRun(cfg, ws, ls, i, j);
        }
      }
    }
    if GoesBack(ws, IdType) {
      var i, j :| 0 <= i < j < |ws| && Back(ws[i], ws[j], IdType);
      BackIsLate(cfg, ws, ls, i, j, IdType);
    }
  }
}
