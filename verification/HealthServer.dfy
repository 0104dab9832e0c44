/** The health server as the mutable object it is. Its methods are written as the atomic actions
    they consist of, with watchers free to run their loops in between; each method is proved to be a
    run of the health watch protocol. */
module HealthServer {
  import opened Wrappers
  import H = HealthWatch
  import Runs
  import WatcherLists

  /** The running part of one `Watch` call. */
  datatype Stream = Stream(
    service: string, slot: Option<H.Status>, inHand: Option<H.Status>, lastSent: Option<H.Status>, stage: H.Stage)

  function StreamOf(x: H.Session): Stream {
    Stream(x.service, x.slot, x.inHand, if x.sent == [] then None else Some(x.sent[|x.sent| - 1]), x.stage)
  }

  /** The histories belong to the running calls. */
  ghost predicate Tied(streams: map<nat, Stream>, sessions: map<nat, H.Session>) {
    streams.Keys == sessions.Keys && forall w :: w in streams ==> streams[w] == StreamOf(sessions[w])
  }

  lemma TiedUpdate(streams: map<nat, Stream>, sessions: map<nat, H.Session>, w: nat, x: H.Session)
    requires Tied(streams, sessions)
    ensures Tied(streams[w := StreamOf(x)], sessions[w := x])
  {
  }

  /** Remembering the status in hand as the last one sent, which a repetition already is. */
  lemma SentIsTied(streams: map<nat, Stream>, sessions: map<nat, H.Session>, w: nat)
    requires Tied(streams, sessions) && w in streams && streams[w].inHand.Some?
    ensures var x := streams[w];
            && w in sessions && sessions[w].inHand.Some?
            && x.(lastSent := x.inHand, inHand := None) == StreamOf(H.Sent(sessions[w]))
            && (x.lastSent == x.inHand ==> x.(inHand := None) == StreamOf(H.Sent(sessions[w])))
            && Tied(streams[w := StreamOf(H.Sent(sessions[w]))], sessions[w := H.Sent(sessions[w])])
  {
  }

  /** A turn that a `Watch` call takes without the lock; `fails` says whether its client is gone. */
  datatype Turn = Turn(watcher: nat, fails: bool)

  /** One step of the protocol, taken in a state that the protocol can get into. */
  ghost predicate Stepped(before: H.System, step: H.Step, after: H.System) {
    H.Next(before, step) == Some(after) && Runs.Reaches(H.Next, before, after)
  }

  lemma StepTaken(s: H.System, step: H.Step)
    requires H.Reachable(s) && H.Next(s, step).Some?
    ensures Stepped(s, step, H.Next(s, step).value) && H.Reachable(H.Next(s, step).value)
  {
    Runs.ReachesSelf(H.Next, s);
    Runs.ReachesStep(H.Next, s, s, step);
    Runs.ReachesStep(H.Next, H.START, s, step);
  }

  class HealthServer {
    var shutdown: bool
    var statusMap: map<string, H.Status>
    var watchers: map<string, seq<nat>>
    var streams: map<nat, Stream>
    // the calls with their histories, who holds the lock, and every status set so far
    ghost var sessions: map<nat, H.Session>
    ghost var phase: H.Phase
    ghost var log: map<string, seq<H.Status>>

    ghost function View(): H.System
      reads this
    {
      H.System(shutdown, statusMap, watchers, sessions, phase, log)
    }

    /** Even while the lock is held, the state is one that the protocol can get into. */
    ghost predicate Consistent()
      reads this
    {
      H.Reachable(View()) && Tied(streams, sessions)
    }

    ghost predicate Valid()
      reads this
    {
      Consistent() && phase == H.Idle
    }

    constructor ()
      ensures View() == H.START && streams == map[] && Valid()
    {
      shutdown, statusMap, watchers, streams := false, map["" := H.Serving], map[], map[];
      sessions, phase, log := map[], H.Idle, map[];
      new;
      Runs.ReachesSelf(H.Next, H.START);
    }

    // -------------------------------------------------------------- Watch

    /** The registration part of `Watch`, under the lock. */
    method Register(w: nat, service: string)
      requires Valid() && w !in streams
      modifies this`watchers, this`streams, this`sessions
      ensures Valid() && Stepped(old(View()), H.Register(w, service), View())
      ensures w in streams && streams[w].slot == Some(if service in statusMap then statusMap[service] else H.ServiceUnknown)
    {
      TiedUpdate(streams, sessions, w, H.Newcomer(service, GetOr(statusMap, service, H.ServiceUnknown), |GetOr(log, service, [])|));
      StepTaken(View(), H.Register(w, service));
      var status := GetOr(statusMap, service, H.ServiceUnknown);
      streams := streams[w := Stream(service, Some(status), None, None, H.Streaming)];
      watchers := watchers[service := GetOr(watchers, service, []) + [w]];
      sessions := sessions[w := H.Newcomer(service, status, |GetOr(log, service, [])|)];
    }

    /** The streaming loop takes a status from the channel. */
    method Take(w: nat)
      requires Consistent() && w in streams && streams[w].stage == H.Streaming
      requires streams[w].inHand.None? && streams[w].slot.Some?
      modifies this`streams, this`sessions
      ensures Consistent() && Stepped(old(View()), H.Take(w), View())
    {
      TiedUpdate(streams, sessions, w, H.Taken(sessions[w]));
      StepTaken(View(), H.Take(w));
      streams := streams[w := streams[w].(slot := None, inHand := streams[w].slot)];
      sessions := sessions[w := H.Taken(sessions[w])];
    }

    /** The streaming loop sends the status it has taken, unless it repeats the last one. */
    method Send(w: nat)
      requires Consistent() && w in streams && streams[w].stage == H.Streaming && streams[w].inHand.Some?
      modifies this`streams, this`sessions
      ensures Consistent() && Stepped(old(View()), H.Send(w), View())
    {
      SentIsTied(streams, sessions, w);
      StepTaken(View(), H.Send(w));
      var x := streams[w];
      if x.lastSent != x.inHand {
        x := x.(lastSent := x.inHand);
      }
      streams := streams[w := x.(inHand := None)];
      sessions := sessions[w := H.Sent(sessions[w])];
    }

    /** The send fails, and the call returns with the status in hand. */
    method FailSend(w: nat)
      requires Consistent() && w in streams && streams[w].stage == H.Streaming
      requires streams[w].inHand.Some? && streams[w].lastSent != streams[w].inHand
      modifies this`streams, this`sessions
      ensures Consistent() && Stepped(old(View()), H.FailSend(w), View())
    {
      StepTaken(View(), H.FailSend(w));
      streams := streams[w := streams[w].(stage := H.Leaving)];
      sessions := sessions[w := sessions[w].(stage := H.Leaving)];
    }

    /** The client cancels, and the call returns. */
    method Cancel(w: nat)
      requires Consistent() && w in streams && streams[w].stage == H.Streaming && streams[w].inHand.None?
      modifies this`streams, this`sessions
      ensures Consistent() && Stepped(old(View()), H.Cancel(w), View())
    {
      StepTaken(View(), H.Cancel(w));
      streams := streams[w := streams[w].(stage := H.Leaving)];
      sessions := sessions[w := sessions[w].(stage := H.Leaving)];
    }

    /** The cleanup of `Watch`, under the lock. */
    method Cleanup(w: nat)
      requires Valid() && w in streams && streams[w].stage == H.Leaving
      modifies this`watchers, this`streams, this`sessions
      ensures Valid() && Stepped(old(View()), H.Cleanup(w), View())
    {
      TiedUpdate(streams, sessions, w, sessions[w].(stage := H.Gone));
      StepTaken(View(), H.Cleanup(w));
      var service := streams[w].service;
      watchers := watchers[service := WatcherLists.Without(GetOr(watchers, service, []), w)];
      streams := streams[w := streams[w].(stage := H.Gone)];
      sessions := sessions[w := sessions[w].(stage := H.Gone)];
    }

    /** Whatever the call does next without the lock, if it can. */
    method TakeTurn(w: nat, fails: bool)
      requires Consistent()
      modifies this`streams, this`sessions
      ensures Consistent() && Runs.Reaches(H.Next, old(View()), View())
    {
      Runs.ReachesSelf(H.Next, View());
      if w in streams && streams[w].stage == H.Streaming {
        if streams[w].inHand.Some? {
          if fails && streams[w].lastSent != streams[w].inHand { FailSend(w); } else { Send(w); }
        } else if fails {
          Cancel(w);
        } else if streams[w].slot.Some? {
          Take(w);
        }
      }
    }

    /** The turns that the scheduler gives to watchers while somebody else may hold the lock. */
    method LetRun(turns: seq<Turn>, ghost before: H.System)
      requires Since(before)
      modifies this`streams, this`sessions
      ensures Since(before)
    {
      for i := 0 to |turns|
        invariant Since(before)
      {
        ghost var s := View();
        StillReachable(before, s);
        TakeTurn(turns[i].watcher, turns[i].fails);
        Runs.ReachesTransitive(H.Next, before, s, View());
      }
    }

    // -------------------------------------------------------------- setting a status

    /** In the course of a method that began in the state `before`. */
    ghost predicate Since(before: H.System)
      reads this
    {
      H.Reachable(before) && Runs.Reaches(H.Next, before, View()) && Tied(streams, sessions)
    }

    /** Takes out whatever the watcher has not read yet. */
    method Drain(w: nat, ghost before: H.System)
      requires Since(before) && phase.Notifying? && !phase.drained && phase.pending != [] && phase.pending[0] == w
      modifies this`streams, this`sessions, this`phase
      ensures Since(before) && phase == old(phase).(drained := true)
    {
      PendingIsKnown(before, View());
      Runs.ReachesStep(H.Next, before, View(), H.Drain);
      streams := streams[w := streams[w].(slot := None)];
      sessions := sessions[w := sessions[w].(slot := None)];
      phase := phase.(drained := true);
    }

    /** Puts the status in, or skips the watcher if its slot is full: which never happens. */
    method Put(w: nat, status: H.Status, ghost before: H.System) returns (skipped: bool)
      requires Since(before) && phase.Notifying? && phase.drained && phase.status == status
      requires phase.pending != [] && phase.pending[0] == w
      modifies this`streams, this`sessions, this`phase
      ensures Since(before) && phase == old(phase).(drained := false, pending := old(phase).pending[1..])
      ensures !skipped && w in streams && streams[w].slot == Some(status)
    {
      PendingIsKnown(before, View());
      Runs.ReachesStep(H.Next, before, View(), H.Put);
      skipped := streams[w].slot.Some?;
      if !skipped {
        streams := streams[w := streams[w].(slot := Some(status))];
        sessions := sessions[w := sessions[w].(slot := Some(status))];
      }
      phase := phase.(drained := false, pending := phase.pending[1..]);
    }

    /** Drain, then put, with watchers running before, in between and after. */
    method Notify(w: nat, status: H.Status, turns: nat -> seq<Turn>, ghost before: H.System)
      requires Since(before) && phase.Notifying? && phase.status == status && !phase.drained
      requires phase.pending != [] && phase.pending[0] == w
      modifies this`streams, this`sessions, this`phase
      ensures Since(before) && phase == old(phase).(pending := old(phase).pending[1..])
    {
      LetRun(turns(0), before);
      Drain(w, before);
      LetRun(turns(1), before);
      var skipped := Put(w, status, before);
      LetRun(turns(2), before);
    }

    /** Notifies every watcher of one service. */
    method NotifyAll(service: string, status: H.Status, turns: nat -> seq<Turn>, ghost before: H.System)
      requires Since(before) && phase.Notifying? && !phase.drained
      requires phase.service == service && phase.status == status && phase.pending == H.Listed(View(), service)
      modifies this`streams, this`sessions, this`phase
      ensures Since(before) && phase == H.Sweeping(old(phase).rest)
    {
      var toNotify := GetOr(watchers, service, []);
      assert toNotify[0..] == toNotify;
      for i := 0 to |toNotify|
        invariant Since(before) && phase == old(phase).(pending := toNotify[i..])
      {
        Notify(toNotify[i], status, (n: nat) => turns(3 * i + n), before);
        assert toNotify[i..][1..] == toNotify[i + 1..];
      }
      assert toNotify[|toNotify|..] == [];
      Runs.ReachesStep(H.Next, before, View(), H.NextService);
      phase := H.Sweeping(phase.rest);
    }

    /** Sets one status and tells its watchers, whatever they do meanwhile. */
    method SetServingStatus(service: string, status: H.Status, turns: nat -> seq<Turn>)
      requires Valid()
      modifies this`statusMap, this`streams, this`sessions, this`phase, this`log
      ensures Valid() && Runs.Reaches(H.Next, old(View()), View())
      ensures shutdown ==> View() == old(View()) && streams == old(streams)
      ensures !shutdown ==> statusMap == old(statusMap)[service := status]
      ensures !shutdown ==> log == old(log)[service := H.LogOf(old(View()), service) + [status]]
    {
      Runs.ReachesSelf(H.Next, View());
      if shutdown { return; }
      Runs.ReachesStep(H.Next, View(), View(), H.Set(service, status));
      log := log[service := GetOr(log, service, []) + [status]];
      statusMap := statusMap[service := status];
      phase := H.Notifying(service, status, H.Listed(View(), service), false, {});
      NotifyAll(service, status, turns, old(View()));
      Unlock(old(View()));
    }

    /** The lock is released. */
    ghost method Unlock(before: H.System)
      requires Since(before) && phase == H.Sweeping({})
      modifies this`phase
      ensures Valid() && Since(before)
    {
      Runs.ReachesStep(H.Next, before, View(), H.Unlock);
      phase := H.Idle;
      StillReachable(before, View());
    }

    /** Sets every known service to NOT_SERVING, in any order, and refuses later updates. */
    method Shutdown(turns: (nat, nat) -> seq<Turn>)
      requires Valid()
      modifies this`shutdown, this`statusMap, this`streams, this`sessions, this`phase, this`log
      ensures Valid() && Runs.Reaches(H.Next, old(View()), View())
      ensures shutdown && statusMap.Keys == old(statusMap).Keys
      ensures forall v :: v in statusMap ==> statusMap[v] == H.NotServing
    {
      ghost var before := View();
      Runs.ReachesSelf(H.Next, before);
      Runs.ReachesStep(H.Next, before, before, H.BeginShutdown);
      shutdown := true;
      phase := H.Sweeping(statusMap.Keys);
      var todo := statusMap.Keys;
      var round: nat := 0;
      while todo != {}
        invariant Since(before) && phase == H.Sweeping(todo) && shutdown
        invariant statusMap.Keys == old(statusMap).Keys && todo <= statusMap.Keys
        decreases todo
      {
        var service :| service in todo;
        SetStatusLocked(service, todo, (n: nat) => turns(round, n), before);
        todo := todo - {service};
        round := round + 1;
      }
      SweptMeansDown(before, View());
      Unlock(before);
    }

    /** Sets one service during a shutdown that has `rest` services to go. */
    method SetStatusLocked(service: string, ghost rest: set<string>, turns: nat -> seq<Turn>, ghost before: H.System)
      requires Since(before) && phase == H.Sweeping(rest) && service in rest
      modifies this`statusMap, this`streams, this`sessions, this`phase, this`log
      ensures Since(before) && phase == H.Sweeping(rest - {service})
      ensures statusMap == old(statusMap)[service := H.NotServing]
    {
      Runs.ReachesStep(H.Next, before, View(), H.Sweep(service));
      log := log[service := GetOr(log, service, []) + [H.NotServing]];
      statusMap := statusMap[service := H.NotServing];
      phase := H.Notifying(service, H.NotServing, H.Listed(View(), service), false, rest - {service});
      NotifyAll(service, H.NotServing, turns, before);
    }
  }

  lemma StillReachable(before: H.System, s: H.System)
    requires H.Reachable(before) && Runs.Reaches(H.Next, before, s)
    ensures H.Reachable(s)
  {
    Runs.ReachesTransitive(H.Next, H.START, before, s);
  }

  lemma PendingIsKnown(before: H.System, s: H.System)
    requires H.Reachable(before) && Runs.Reaches(H.Next, before, s) && s.phase.Notifying? && s.phase.pending != []
    ensures s.phase.pending[0] in s.sessions
    ensures s.phase.drained ==> s.sessions[s.phase.pending[0]].slot.None?
  {
    StillReachable(before, s);
    H.ReachableSatisfiesInvariant(s);
    H.PendingIsListed(s);
  }

  lemma SweptMeansDown(before: H.System, s: H.System)
    requires H.Reachable(before) && Runs.Reaches(H.Next, before, s) && s.shutdown && s.phase == H.Sweeping({})
    ensures forall v :: v in s.statusMap ==> s.statusMap[v] == H.NotServing
  {
    StillReachable(before, s);
    H.ReachableSatisfiesInvariant(s);
  }
}
