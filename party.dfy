/**
  The Robo Party tracker: the single global `party_state` record of the bot,
  the `/start` and `/done` slash commands that update it, and the
  append-only `party_history` table that `/done` writes to.

  Times are integer seconds on the UTC clock; the clock reading is passed in
  as `now`.
 */
module Party {
  import opened Wrappers

  /** ROBO_PARTY_INTERVAL: three hours, in seconds. */
  const RoboPartyInterval: int := 3 * 60 * 60

  type UserId = int

  /** The four fields of `party_state`. */
  datatype PartyState = PartyState(
    active: bool,
    nextPartyTime: Option<int>,
    sleepUntil: Option<int>,
    reminderSent: bool)

  /** The tracker state together with the `completed_by` column of `party_history`, oldest row first. */
  datatype Tracker = Tracker(state: PartyState, history: seq<UserId>)

  /** What `/done` answers. */
  datatype DoneReply = NotActive | Complete

  /** The record as the module initialises it. */
  const InitialState := PartyState(false, None, None, false)
  const InitialTracker := Tracker(InitialState, [])

  /** Effect of `/start`: always (re-)arms the timer. */
  function StartStep(t: Tracker, now: int): Tracker {
    Tracker(t.state.(active := true, nextPartyTime := Some(now + RoboPartyInterval), reminderSent := false), t.history)
  }

  /** Effect of `/done`: rejected when tracking is inactive, otherwise logs the completer and resets the timer. */
  function DoneStep(t: Tracker, now: int, user: UserId): (Tracker, DoneReply) {
    if !t.state.active then (t, NotActive)
    else (Tracker(t.state.(nextPartyTime := Some(now + RoboPartyInterval), reminderSent := false), t.history + [user]), Complete)
  }

  /** A slash command as the tracker receives it, stamped with the clock reading at which it ran. */
  datatype Command = Start(at: int) | Done(at: int, user: UserId)

  function Step(t: Tracker, c: Command): Tracker {
    match c
    case Start(now) => StartStep(t, now)
    case Done(now, user) => DoneStep(t, now, user).0
  }

  /** The tracker after running `cmds` in order from `t`. */
  function Run(t: Tracker, cmds: seq<Command>): Tracker
    decreases |cmds|
  {
    if cmds == [] then t else Run(Step(t, cmds[0]), cmds[1..])
  }

  /** Number of `/done` commands in `cmds` that are answered `Complete` when run from `t`. */
  function Completions(t: Tracker, cmds: seq<Command>): nat
    decreases |cmds|
  {
    if cmds == [] then 0
    else (if cmds[0].Done? && t.state.active then 1 else 0) + Completions(Step(t, cmds[0]), cmds[1..])
  }

  /** Number of `/done` commands in `cmds`. */
  function DoneCount(cmds: seq<Command>): nat
    decreases |cmds|
  {
    if cmds == [] then 0 else (if cmds[0].Done? then 1 else 0) + DoneCount(cmds[1..])
  }

  /**
    The invariant every reachable tracker keeps: a next party time is known
    exactly when tracking is active, and nothing sets `sleep_until`.
   */
  ghost predicate Consistent(t: Tracker) {
    (t.state.active <==> t.state.nextPartyTime.Some?) && t.state.sleepUntil == None
  }

  // ---------------------------------------------------------------- one step

  /** `/start` arms the 3-hour timer from `now` and clears the reminder flag; `sleep_until` and the history are untouched. */
  lemma StartArms(t: Tracker, now: int)
    ensures StartStep(t, now).state.active
    ensures StartStep(t, now).state.nextPartyTime == Some(now + 10800)
    ensures !StartStep(t, now).state.reminderSent
    ensures StartStep(t, now).state.sleepUntil == t.state.sleepUntil
    ensures StartStep(t, now).history == t.history
  {
  }

  /** A second `/start` only re-arms the timer relative to the later clock reading. */
  lemma StartRearms(t: Tracker, first: int, second: int)
    ensures StartStep(StartStep(t, first), second) == StartStep(t, second)
  {
  }

  /** `/done` while inactive answers `NotActive` and changes neither the record nor the history. */
  lemma DoneWhenInactive(t: Tracker, now: int, user: UserId)
    requires !t.state.active
    ensures DoneStep(t, now, user) == (t, NotActive)
  {
  }

  /**
    `/done` while active answers `Complete`, appends exactly the caller's id to
    the history, re-arms the timer from `now`, clears the reminder flag and
    leaves `active` and `sleep_until` alone.
   */
  lemma DoneWhenActive(t: Tracker, now: int, user: UserId)
    requires t.state.active
    ensures DoneStep(t, now, user).1 == Complete
    ensures DoneStep(t, now, user).0.history == t.history + [user]
    ensures DoneStep(t, now, user).0.state.nextPartyTime == Some(now + 10800)
    ensures !DoneStep(t, now, user).0.state.reminderSent
    ensures DoneStep(t, now, user).0.state.active == t.state.active
    ensures DoneStep(t, now, user).0.state.sleepUntil == t.state.sleepUntil
  {
  }

  /** `/done` answers `Complete` exactly when tracking was active, and then the history grows by one row. */
  lemma DoneReplyMeansLogged(t: Tracker, now: int, user: UserId)
    ensures DoneStep(t, now, user).1 == Complete <==> t.state.active
    ensures |DoneStep(t, now, user).0.history| == |t.history| + (if t.state.active then 1 else 0)
  {
  }

  // ---------------------------------------------------------------- traces

  /** Every command keeps the invariant. */
  lemma StepConsistent(t: Tracker, c: Command)
    requires Consistent(t)
    ensures Consistent(Step(t, c))
  {
  }

  /** The record as the module initialises it satisfies the invariant. */
  lemma InitialConsistent()
    ensures Consistent(InitialTracker)
  {
  }

  /** Every tracker reachable by commands from a consistent one satisfies the invariant. */
  lemma {:induction false} RunConsistent(t: Tracker, cmds: seq<Command>)
    requires Consistent(t)
    ensures Consistent(Run(t, cmds))
    decreases |cmds|
  {
    if cmds != [] {
      StepConsistent(t, cmds[0]);
      RunConsistent(Step(t, cmds[0]), cmds[1..]);
    }
  }

  /** No command ever switches tracking off: once `/start` has run, every later `/done` is accepted. */
  lemma {:induction false} ActiveStaysActive(t: Tracker, cmds: seq<Command>)
    requires t.state.active
    ensures Run(t, cmds).state.active
    ensures Completions(t, cmds) == DoneCount(cmds)
    decreases |cmds|
  {
    if cmds != [] {
      ActiveStaysActive(Step(t, cmds[0]), cmds[1..]);
    }
  }

  /**
    The history is append-only: a run only extends it, by exactly one row per
    accepted `/done`.
   */
  lemma {:induction false} HistoryAppendOnly(t: Tracker, cmds: seq<Command>)
    ensures |Run(t, cmds).history| == |t.history| + Completions(t, cmds)
    ensures Run(t, cmds).history[..|t.history|] == t.history
    decreases |cmds|
  {
    if cmds != [] {
      var t' := Step(t, cmds[0]);
      HistoryAppendOnly(t', cmds[1..]);
      assert t'.history[..|t.history|] == t.history;
      assert Run(t, cmds).history[..|t.history|] == Run(t', cmds[1..]).history[..|t'.history|][..|t.history|];
    }
  }

  /** Before any `/start`, every `/done` is refused and the history stays empty. */
  lemma {:induction false} NoCompletionsBeforeStart(cmds: seq<Command>)
    requires forall i :: 0 <= i < |cmds| ==> cmds[i].Done?
    ensures Run(InitialTracker, cmds) == InitialTracker
    decreases |cmds|
  {
    if cmds != [] {
      assert Step(InitialTracker, cmds[0]) == InitialTracker;
      NoCompletionsBeforeStart(cmds[1..]);
    }
  }

  // ---------------------------------------------------------------- the global record

  /** The module-level `party_state` dict and the history table, as one object whose commands update its fields in place. */
  class PartyTracker {
    var active: bool
    var nextPartyTime: Option<int>
    var sleepUntil: Option<int>
    var reminderSent: bool
    var history: seq<UserId>

    /** The abstract value of the object. */
    function Model(): Tracker
      reads this
    {
      Tracker(PartyState(active, nextPartyTime, sleepUntil, reminderSent), history)
    }

    constructor ()
      ensures Model() == InitialTracker
    {
      active, nextPartyTime, sleepUntil, reminderSent := false, None, None, false;
      history := [];
    }

    /** `/start` */
    method StartTracking(now: int)
      modifies this
      ensures Model() == StartStep(old(Model()), now)
    {
      active := true;
      nextPartyTime := Some(now + RoboPartyInterval);
      reminderSent := false;
    }

    /** `/done` */
    method PartyDone(now: int, user: UserId) returns (reply: DoneReply)
      modifies this
      ensures (Model(), reply) == DoneStep(old(Model()), now, user)
    {
      if !active {
        return NotActive;
      }
      history := history + [user];
      nextPartyTime := Some(now + RoboPartyInterval);
      reminderSent := false;
      reply := Complete;
    }
  }
}
