/** The session record as the manager keeps it: fields updated in place, one method per atomic step. */
module SessionRecord {
  import opened Wrappers
  import opened Text
  import opened SendQueue
  import Runs = SendQueueRuns

  class Record {
    const config: Config
    var now: int
    var ready: bool
    var pendingSends: int
    var lastSentAt: int
    var activeApiSend: Option<ActiveSend>
    var recentApiMessageIds: seq<Cached>
    var sends: seq<Op>
    var observed: seq<Echo>

    ghost function View(): State
      reads this
    {
      State(now, ready, pendingSends, lastSentAt, activeApiSend, recentApiMessageIds, sends, observed)
    }

    ghost predicate Valid()
      reads this
    {
      Inv(config, View())
    }

    constructor (config: Config, now: int)
      requires config.Valid() && now > 0
      ensures Valid() && View() == Initial(now) && this.config == config
    {
      this.config := config;
      this.now, ready, pendingSends, lastSentAt := now, false, 0, 0;
      activeApiSend, recentApiMessageIds, sends, observed := None, [], [], [];
      new;
      Runs.InitialInv(config, now);
    }

    /** The part of `sendText` before its first await. The result is the call's place in the queue. */
    method SendText(to: string, text: string, operationId: Option<string>) returns (r: Result<nat, SubmitError>)
      requires Valid()
      modifies this
      ensures Valid() && View() == Step(config, old(View()), Submit(to, text, operationId))
      ensures r.Success? ==> r.value == old(|sends|) && |sends| == old(|sends|) + 1 && Runs.IsCallOf(sends[r.value], Submit(to, text, operationId))
      ensures r.Success? <==> Runs.Admitted(config, old(View()), Submit(to, text, operationId))
      ensures r == Failure(SessionNotReady) <==> !old(ready)
      ensures r == Failure(SendQueueFull) ==> old(pendingSends) >= config.maxSendQueue
      ensures r == Failure(InvalidSendPayload) <==> old(ready) && (to == "" || AllSpace(text) || !Runs.GoodOperation(operationId))
      ensures match Submitted(config, old(View()), to, text, operationId)
              case Success(_) => r.Success?
              case Failure(e) => r == Failure(e) && View() == old(View())
    {
      Runs.StepKeepsInv(config, View(), Submit(to, text, operationId));
      TrimTrims(text);
      TrimIsEmptyIff(text);
      Runs.NormalizedIsNamed(operationId);
      Runs.TargetAddresses(to);
      if !ready { return Failure(SessionNotReady); }
      if to == "" || Trim(text) == "" { return Failure(InvalidSendPayload); }
      var operation := NormalizeOperation(operationId);
      if operation.Failure? { return Failure(operation.error); }
      if pendingSends >= config.maxSendQueue { return Failure(SendQueueFull); }
      pendingSends := pendingSends + 1;
      r := Success(|sends|);
      sends := sends + [Op(operation.value, Target(to), Trim(text), Waiting, None, false)];
    }

    /** The first part of the queued callback, up to the sleep or to the call of `sendMessage`. */
    method BeginSend(i: nat)
      requires Valid() && CanBegin(View(), i)
      modifies this
      ensures Valid() && View() == Step(config, old(View()), Begin(i))
    {
      Runs.StepKeepsInv(config, View(), Begin(i));
      if !ready {
        sends := sends[i := sends[i].(phase := Settled(NotReady))];
        return;
      }
      var elapsed := now - lastSentAt;
      var waitMs := if lastSentAt > 0 then Max(0, config.minSendIntervalMs - elapsed) else 0;
      assert waitMs == WaitMs(config, View()) && Step(config, View(), Begin(i)) == Begun(config, View(), i);
      if waitMs > 0 {
        sends := sends[i := sends[i].(phase := Sleeping(now + waitMs))];
      } else {
        StartSend(i);
      }
    }

    method WakeSend(i: nat)
      requires Valid() && CanWake(View(), i)
      modifies this
      ensures Valid() && View() == Step(config, old(View()), Wake(i))
    {
      Runs.StepKeepsInv(config, View(), Wake(i));
      StartSend(i);
    }

    method StartSend(i: nat)
      requires i < |sends|
      modifies this
      ensures View() == Started(old(View()), i)
    {
      var op := sends[i];
      if op.operation.Some? {
        activeApiSend := Some(ActiveSend(op.operation.value, op.peer, op.text, now, i));
      }
      sends := sends[i := op.(phase := Sending, startedAt := Some(now))];
    }

    /** `sendMessage` fulfilled: remember the id, resolve the completion, clear the active slot. */
    method SendReturned(i: nat, messageId: Option<string>)
      requires Valid() && CanReturn(View(), i)
      modifies this
      ensures Valid() && View() == Step(config, old(View()), Return(i, messageId))
    {
      ghost var s := View();
      var op := sends[i];
      lastSentAt := now;
      Remember(op, messageId);
      Settle(i, Sent(messageId, now), messageId);
      assert View() == Returned(config, s, i, messageId);
      Runs.ReturnedKeeps(config, s, i, messageId);
    }

    method Remember(op: Op, messageId: Option<string>)
      modifies this`recentApiMessageIds
      ensures recentApiMessageIds ==
        if Caches(op, messageId)
        then Prune(config, Put(old(recentApiMessageIds), Cached(messageId.value, op.operation.value, now + config.ttlMs)), now)
        else old(recentApiMessageIds)
    {
      if messageId.Some? && messageId.value != "" && op.operation.Some? {
        recentApiMessageIds := Put(recentApiMessageIds, Cached(messageId.value, op.operation.value, now + config.ttlMs));
        PruneRecentApiMessages();
      }
    }

    method SendThrew(i: nat)
      requires Valid() && CanReturn(View(), i)
      modifies this
      ensures Valid() && View() == Step(config, old(View()), Throw(i))
    {
      Runs.StepKeepsInv(config, View(), Throw(i));
      Settle(i, SendFailed, None);
    }

    /** `completion?.resolve` and the `finally` of the send. */
    method Settle(i: nat, receipt: Receipt, messageId: Option<string>)
      requires i < |sends|
      modifies this
      ensures var s := old(View());
              View() == s.(ops := s.ops[i := s.ops[i].(phase := Settled(receipt))],
                           echoes := ResolveAll(s.echoes, i, s.ops[i].operation, messageId),
                           active := ActiveAfter(s, s.ops[i]))
    {
      var op := sends[i];
      observed := ResolveAll(observed, i, op.operation, messageId);
      if op.operation.Some? && activeApiSend.Some? && activeApiSend.value.operation == op.operation.value {
        activeApiSend := None;
      }
      sends := sends[i := op.(phase := Settled(receipt))];
    }

    /** The `finally` of `sendText` itself. */
    method CloseSend(i: nat)
      requires Valid() && CanClose(View(), i)
      modifies this
      ensures Valid() && View() == Step(config, old(View()), Close(i))
      ensures pendingSends >= 0
    {
      Runs.StepKeepsInv(config, View(), Close(i));
      pendingSends := pendingSends - 1;
      sends := sends[i := sends[i].(closed := true)];
    }

    /** Drops the expired entries, then the oldest ones until the cap holds. */
    method PruneRecentApiMessages()
      modifies this`recentApiMessageIds
      ensures recentApiMessageIds == Prune(config, old(recentApiMessageIds), now)
      ensures |recentApiMessageIds| <= config.maxRecent
    {
      DropExpired();
      ghost var unexpired := recentApiMessageIds;
      while |recentApiMessageIds| > config.maxRecent
        invariant Newest(recentApiMessageIds, config.maxRecent) == Newest(unexpired, config.maxRecent)
        decreases |recentApiMessageIds|
      {
        recentApiMessageIds := recentApiMessageIds[1..];
      }
    }

    method DropExpired()
      modifies this`recentApiMessageIds
      ensures recentApiMessageIds == Unexpired(old(recentApiMessageIds), now)
    {
      var k := 0;
      while k < |recentApiMessageIds|
        invariant 0 <= k <= |recentApiMessageIds|
        invariant recentApiMessageIds[..k] + Unexpired(recentApiMessageIds[k..], now) == Unexpired(old(recentApiMessageIds), now)
        decreases |recentApiMessageIds| - k
      {
        ghost var kept, rest := recentApiMessageIds[..k], recentApiMessageIds[k..];
        if recentApiMessageIds[k].expiresAt <= now {
          assert Unexpired(rest, now) == Unexpired(rest[1..], now);
          recentApiMessageIds := recentApiMessageIds[..k] + recentApiMessageIds[k + 1..];
          assert recentApiMessageIds[k..] == rest[1..] && recentApiMessageIds[..k] == kept;
        } else {
          assert recentApiMessageIds[k + 1..] == rest[1..] && recentApiMessageIds[..k + 1] == kept + [rest[0]];
          assert kept + ([rest[0]] + Unexpired(rest[1..], now)) == (kept + [rest[0]]) + Unexpired(rest[1..], now);
          k := k + 1;
        }
      }
      assert recentApiMessageIds[..k] == recentApiMessageIds;
    }

    /** `apiOriginFor` up to its await: the result is the message's place among the observed ones. */
    method ObserveFromMe(id: string, peer: string, text: string) returns (e: nat)
      requires Valid() && id != "" && peer != "" && text != ""
      modifies this
      ensures Valid() && View() == Step(config, old(View()), Observe(id, peer, text))
      ensures e == old(|observed|) && |observed| == e + 1
    {
      ghost var s := View();
      PruneRecentApiMessages();
      var origin := NoHint;
      var recent := Lookup(recentApiMessageIds, id);
      if recent.Some? {
        origin := WorkerApi(recent.value);
      } else if activeApiSend.Some? && activeApiSend.value.peer == peer && activeApiSend.value.text == text {
        origin := Pending(activeApiSend.value.op, now + config.resolutionMs);
      }
      e := |observed|;
      observed := observed + [Echo(id, peer, text, origin)];
      assert View() == Observed(config, s, id, peer, text);
      Runs.StepKeepsInv(config, s, Observe(id, peer, text));
    }

    method ResolutionTimedOut(e: nat)
      requires Valid() && CanExpire(View(), e)
      modifies this
      ensures Valid() && View() == Step(config, old(View()), Expire(e))
    {
      Runs.StepKeepsInv(config, View(), Expire(e));
      observed := observed[e := observed[e].(origin := NoHint)];
    }
  }
}
