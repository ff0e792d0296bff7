/** Session lifetime, logout and eviction over whole runs of requests. */
module SessionLaws {
  import opened Prelude
  import opened Sessions

  /** TTLs that pass `SessionConfig.Validate`. */
  predicate Validated(cfg: Config) {
    0 < cfg.idle && (0 < cfg.max ==> cfg.idle <= cfg.max)
  }

  /** `states[i + 1]` is the store after request `i`. */
  predicate IsHistory(cfg: Config, states: seq<Records>, reqs: seq<Request>) {
    && |states| == |reqs| + 1
    && forall i :: 0 <= i < |reqs| ==> states[i + 1] == Served(cfg, states[i], reqs[i])
  }

  predicate InOrder(reqs: seq<Request>) {
    forall i, j :: 0 <= i < j < |reqs| ==> reqs[i].now <= reqs[j].now
  }

  /** Session IDs are drawn once, and are not empty. */
  predicate NoCreate(acts: seq<Action>, sid: string) {
    forall a :: a in acts && a.DoCreate? ==> a.id != sid && a.id != ""
  }

  /** Every record is filed under its own, nonempty ID. */
  predicate WellFiled(records: Records) {
    forall k :: k in records ==> records[k].id == k && k != ""
  }

  predicate Away(ctx: Option<Record>, sid: string) {
    ctx.None? || ctx.value.id != sid
  }

  // ---- Dead sessions stay dead ----------------------------------------------------------

  /** Absent, or expired by `now`. */
  predicate Dead(records: Records, sid: string, now: Time) {
    sid in records ==> records[sid].Expired(now)
  }

  /** The record is gone or exactly as it was. */
  predicate NotRevived(before: Records, after: Records, sid: string) {
    sid in after ==> sid in before && after[sid] == before[sid]
  }

  predicate Lifeless(st: State, sid: string, now: Time) {
    WellFiled(st.records) && Dead(st.records, sid, now) && Away(st.ctx, sid)
  }

  lemma ActedLeavesDead(cfg: Config, st: State, env: Inbound, now: Time, a: Action, sid: string)
    requires sid != "" && Lifeless(st, sid, now) && NoCreate([a], sid)
    ensures var st' := Acted(cfg, st, env, now, a); Lifeless(st', sid, now) && NotRevived(st.records, st'.records, sid)
  {
    assert a in [a];
  }

  lemma {:induction false} HandledLeavesDead(
    cfg: Config, st: State, env: Inbound, now: Time, acts: seq<Action>, sid: string)
    requires sid != "" && Lifeless(st, sid, now) && NoCreate(acts, sid)
    ensures var st' := Handled(cfg, st, env, now, acts);
      Lifeless(st', sid, now) && NotRevived(st.records, st'.records, sid)
    decreases |acts|
  {
    if acts != [] {
      ActedLeavesDead(cfg, st, env, now, acts[0], sid);
      HandledLeavesDead(cfg, Acted(cfg, st, env, now, acts[0]), env, now, acts[1..], sid);
    }
  }

  /** The middleware's trailing save is one more `DoSave`. */
  lemma {:induction false} SavedIsActed(cfg: Config, st: State, env: Inbound, now: Time, acts: seq<Action>)
    ensures Saved(cfg.evicts, Handled(cfg, st, env, now, acts), env, now) == Handled(cfg, st, env, now, acts + [DoSave])
    decreases |acts|
  {
    if acts == [] {
      assert acts + [DoSave] == [DoSave];
      assert Handled(cfg, Acted(cfg, st, env, now, DoSave), env, now, []) == Acted(cfg, st, env, now, DoSave);
    } else {
      assert (acts + [DoSave])[1..] == acts[1..] + [DoSave];
      SavedIsActed(cfg, Acted(cfg, st, env, now, acts[0]), env, now, acts[1..]);
    }
  }

  /** No request ever extends or recreates a session that is absent or expired when it arrives. */
  lemma ServedLeavesDead(cfg: Config, records: Records, r: Request, sid: string)
    requires sid != "" && WellFiled(records) && Dead(records, sid, r.now) && NoCreate(r.acts, sid)
    ensures var after := Served(cfg, records, r);
      NotRevived(records, after, sid) && Dead(after, sid, r.now) && WellFiled(after)
  {
    SavedIsActed(cfg, Entered(cfg, records, r), r.env, r.now, r.acts);
    HandledLeavesDead(cfg, Entered(cfg, records, r), r.env, r.now, r.acts + [DoSave], sid);
  }

  lemma {:induction false} DeadStaysDead(
    cfg: Config, states: seq<Records>, reqs: seq<Request>, sid: string, now: Time, n: nat)
    requires IsHistory(cfg, states, reqs) && InOrder(reqs) && n <= |reqs| && WellFiled(states[0]) && sid != ""
    requires forall r :: r in reqs ==> now <= r.now && NoCreate(r.acts, sid)
    requires Dead(states[0], sid, now)
    ensures WellFiled(states[n]) && NotRevived(states[0], states[n], sid)
  {
    if n > 0 {
      DeadStaysDead(cfg, states, reqs, sid, now, n - 1);
      ServedLeavesDead(cfg, states[n - 1], reqs[n - 1], sid);
    }
  }

  // ---- Logout ---------------------------------------------------------------------------

  lemma {:induction false} DeleteRemoves(cfg: Config, st: State, env: Inbound, now: Time, acts: seq<Action>)
    requires WellFiled(st.records) && env.cookie != "" && env.removable && NoCreate(acts, env.cookie)
        && DoDelete in acts
    ensures var st' := Handled(cfg, st, env, now, acts); env.cookie !in st'.records && WellFiled(st'.records)
    decreases |acts|
  {
    var st' := Acted(cfg, st, env, now, acts[0]);
    assert acts[0] in acts && WellFiled(st'.records);
    if acts[0] == DoDelete {
      HandledLeavesDead(cfg, st', env, now, acts[1..], env.cookie);
    } else {
      DeleteRemoves(cfg, st', env, now, acts[1..]);
    }
  }

  lemma {:induction false} HandledKeepsFiling(cfg: Config, st: State, env: Inbound, now: Time, acts: seq<Action>)
    requires WellFiled(st.records) && NoCreate(acts, "")
    ensures WellFiled(Handled(cfg, st, env, now, acts).records)
    decreases |acts|
  {
    if acts != [] {
      assert WellFiled(Acted(cfg, st, env, now, acts[0]).records);
      HandledKeepsFiling(cfg, Acted(cfg, st, env, now, acts[0]), env, now, acts[1..]);
    }
  }

  /** Sessions without ID, which stand for bare credentials, are never stored. */
  lemma {:induction false} StaysWellFiled(cfg: Config, states: seq<Records>, reqs: seq<Request>, n: nat)
    requires IsHistory(cfg, states, reqs) && n <= |reqs| && WellFiled(states[0])
    requires forall r :: r in reqs ==> NoCreate(r.acts, "")
    ensures WellFiled(states[n]) && "" !in states[n]
  {
    if n > 0 {
      StaysWellFiled(cfg, states, reqs, n - 1);
      var r := reqs[n - 1];
      SavedIsActed(cfg, Entered(cfg, states[n - 1], r), r.env, r.now, r.acts);
      HandledKeepsFiling(cfg, Entered(cfg, states[n - 1], r), r.env, r.now, r.acts + [DoSave]);
    }
  }

  /**
   * Logout sticks: once a request carrying the session's cookie has deleted it, the repository taking
   * the removal, neither that request's trailing save nor any later request puts the session back.
   */
  lemma LogoutSticks(cfg: Config, states: seq<Records>, reqs: seq<Request>, sid: string, i: nat, n: nat)
    requires IsHistory(cfg, states, reqs) && InOrder(reqs) && i < n <= |reqs| && WellFiled(states[0]) && sid != ""
    requires forall r :: r in reqs ==> NoCreate(r.acts, "")
    requires forall k :: i <= k < |reqs| ==> NoCreate(reqs[k].acts, sid)
    requires reqs[i].env.cookie == sid && reqs[i].env.removable && DoDelete in reqs[i].acts
    ensures sid !in states[n]
    decreases n
  {
    StaysWellFiled(cfg, states, reqs, i);
    var r := reqs[i];
    SavedIsActed(cfg, Entered(cfg, states[i], r), r.env, r.now, r.acts);
    DeleteRemoves(cfg, Entered(cfg, states[i], r), r.env, r.now, r.acts + [DoSave]);
    DeadStaysDead(cfg, states[i + 1..], reqs[i + 1..], sid, r.now, n - i - 1);
  }

}
