// What the threads of one run share (plnt/executors/local.py, _RunState and
// _emit_for; plnt/control/acc.py): the session's log and usage rows, the token
// count, the stop reason, and each agent's loop detector.
module RunState {
  import opened Basics
  import opened Events
  import opened AgentLoop

  datatype Usage = Usage(key: string, prompt: int, completion: int)

  function Billed(rows: seq<Usage>): int {
    if rows == [] then 0
    else Billed(rows[..|rows| - 1]) + rows[|rows| - 1].prompt + rows[|rows| - 1].completion
  }

  lemma BilledSnoc(rows: seq<Usage>, row: Usage)
    ensures Billed(rows + [row]) == Billed(rows) + row.prompt + row.completion
  {
    assert (rows + [row])[..|rows|] == rows;
  }

  // A model_result reports as tokens what it books as usage.
  predicate Sums(k: Kind) {
    k.ModelResult? ==> k.tokens == k.prompt + k.completion
  }

  class Db {
    var events: seq<Event>
    var usage: seq<Usage>

    method Append(agentId: string, kind: Kind)
      modifies this`events
      ensures events == old(events) + [Event(agentId, kind)]
    {
      events := events + [Event(agentId, kind)];
    }

    method RecordUsage(key: string, prompt: int, completion: int)
      modifies this`usage
      ensures usage == old(usage) + [Usage(key, prompt, completion)]
    {
      usage := usage + [Usage(key, prompt, completion)];
    }
  }

  class State {
    var stopReason: Option<string>
    var tokens: int
    const polite: bool // whoever kills this run gives a reason

    constructor (polite: bool)
      ensures stopReason == None && tokens == 0 && this.polite == polite
    {
      stopReason, tokens, this.polite := None, 0, polite;
    }

    // Budget and loop detector: the first reason is kept.
    method Stop(reason: string)
      modifies this`stopReason
      ensures stopReason == AgentLoop.Stop(old(stopReason), reason)
    {
      if stopReason.None? {
        stopReason := Some(reason);
      }
    }

    // The operator's kill overwrites whatever reason there was, as long as
    // the turn's thread is alive.
    method Kill(reason: string, alive: bool) returns (killed: bool)
      modifies this`stopReason
      ensures killed == alive
      ensures stopReason == if alive then Some(reason) else old(stopReason)
    {
      if !alive {
        return false;
      }
      stopReason := Some(reason);
      return true;
    }

    // Between any two steps of a run an operator may kill it, or may not.
    method OperatorMayKill()
      modifies this`stopReason
      ensures polite && old(stopReason) != Some("") ==> stopReason != Some("")
      ensures polite && Halted(old(stopReason)) ==> Halted(stopReason)
    {
      if * {
        var reason: string := *;
        var alive: bool := *;
        if reason != "" || !polite {
          var killed := Kill(reason, alive);
        }
      }
    }
  }

  // The log and the books at some moment of a run.
  datatype Mark = Mark(events: seq<Event>, tokens: int, billed: int)

  ghost function MarkOf(db: Db, state: State): Mark
    reads db, state
  {
    Mark(db.events, state.tokens, Billed(db.usage))
  }

  // Since `m`, exactly `log` was appended, and its tokens were booked.
  ghost predicate Wrote(db: Db, state: State, m: Mark, log: seq<Event>)
    reads db, state
  {
    && db.events == m.events + log
    && state.tokens == m.tokens + LogTokens(log)
    && Billed(db.usage) == m.billed + LogTokens(log)
  }

  // log() and, for a model_result, its usage row and the run's token count.
  method Emit(db: Db, state: State, agentId: string, key: string, kind: Kind)
    modifies db, state`tokens
    ensures db.events == old(db.events) + [Event(agentId, kind)]
    ensures state.tokens == old(state.tokens) + TokensOf(kind)
    ensures db.usage == old(db.usage) + if kind.ModelResult? then [Usage(key, kind.prompt, kind.completion)] else []
    ensures Sums(kind) ==> Billed(db.usage) == old(Billed(db.usage)) + TokensOf(kind)
  {
    db.Append(agentId, kind);
    if kind.ModelResult? {
      BilledSnoc(db.usage, Usage(key, kind.prompt, kind.completion));
      db.RecordUsage(key, kind.prompt, kind.completion);
      state.tokens := state.tokens + kind.tokens;
    }
  }

  // The same, for a log that is followed in `log`.
  method Write(db: Db, state: State, agentId: string, key: string, kind: Kind, ghost m: Mark, ghost log: seq<Event>)
    returns (ghost longer: seq<Event>)
    requires Wrote(db, state, m, log) && Sums(kind)
    modifies db, state`tokens
    ensures longer == log + [Event(agentId, kind)] && Wrote(db, state, m, longer)
    ensures db.usage == old(db.usage) + if kind.ModelResult? then [Usage(key, kind.prompt, kind.completion)] else []
  {
    Emit(db, state, agentId, key, kind);
    longer := log + [Event(agentId, kind)];
    LogTokensSnoc(log, Event(agentId, kind));
    Assoc(m.events, log, [Event(agentId, kind)]);
  }

  // ------------------------------------------------------------ the loop detector

  class ACCMonitor {
    var sigs: map<Sig, nat>
    ghost var history: seq<Sig>

    ghost predicate Valid()
      reads this
    {
      forall x :: (if x in sigs then sigs[x] else 0) == Count(history, x)
    }

    constructor ()
      ensures Valid() && history == []
    {
      sigs, history := map[], [];
    }

    // Reports a loop exactly when this call has been seen three times.
    method Observe(x: Sig) returns (detected: bool)
      requires Valid()
      modifies this
      ensures Valid() && history == old(history) + [x]
      ensures detected <==> Count(history, x) >= 3
    {
      sigs := sigs[x := (if x in sigs then sigs[x] else 0) + 1];
      history := history + [x];
      assert history[..|history| - 1] == old(history);
      detected := sigs[x] >= LOOP_THRESHOLD;
    }
  }
}
