/**
 What a run of the account may write in its log: every entry is allowed by the entries before it.
 These laws speak of the log alone, so they can be read without the account's fields.
 */
module AccountLaws {
  import opened AccountState

  type Log = seq<LogEntry>

  function ReplayOn(log: Log): bool {
    if log == [] then false
    else if log[|log| - 1].Replay? then log[|log| - 1].on
    else ReplayOn(log[..|log| - 1])
  }

  predicate Settles(e: LogEntry, call: nat) {
    (e.Answered? || e.GaveUp?) && e.call == call
  }

  /** After entry `i` the call's own answer came, or its give-up timer went off. */
  ghost predicate SettledSince(log: Log, i: int, call: nat) {
    exists m :: 0 <= m < |log| && i < m && Settles(log[m], call)
  }

  predicate SameOwnId(a: NewOrder, b: NewOrder) {
    a.clientId.Some? && a.clientId.value.Ours? && a.clientId == b.clientId
  }

  predicate SentAs(e: LogEntry, plan: nat, place: nat) {
    e.Sent? && e.from == OfPlan(plan, place)
  }

  /** The order at this place of the plan was sent and, after that, its own call was answered Ok. */
  ghost predicate PlaceDone(log: Log, plan: nat, place: nat) {
    exists i, m :: 0 <= i < m < |log| && SentAs(log[i], plan, place)
      && log[m] == Answered(log[i].call, Placing, true)
  }

  ghost predicate PlaceSent(log: Log, plan: nat, place: nat) {
    exists i :: 0 <= i < |log| && SentAs(log[i], plan, place)
  }

  /** It is this order's turn: it was not sent, and the one before it was sent and answered. */
  ghost predicate Turn(past: Log, order: NewOrder, plan: nat, place: nat) {
    && plan < |past| && past[plan].Planned?
    && place < |past[plan].orders| && order == past[plan].orders[place]
    && !PlaceSent(past, plan, place)
    && (place > 0 ==> PlaceDone(past, plan, place - 1))
  }

  ghost predicate AskedSince(log: Log, i: int, epoch: nat) {
    exists k :: 0 <= k < |log| && i < k && log[k] == ReadAsked(epoch)
  }

  /** The read of `epoch` was asked after every doubt of the log arose. */
  ghost predicate AskedAfterDoubts(log: Log, epoch: nat) {
    forall i :: 0 <= i < |log| && log[i].Doubted? ==> AskedSince(log, i, epoch)
  }

  /** Every read asked so far was of a lower epoch. */
  ghost predicate AskedUnder(log: Log, epoch: nat) {
    forall k | 0 <= k < |log| && log[k].ReadAsked? :: log[k].epoch < epoch
  }

  ghost predicate MaySend(past: Log, e: LogEntry)
    requires e.Sent?
  {
    && !ReplayOn(past)
    && e.proof == Cleared(e.order.Imprint())
    && (forall i :: 0 <= i < |past| && past[i].Sent? ==>
          past[i].call < e.call && SettledSince(past, i, past[i].call) && !SameOwnId(past[i].order, e.order))
    && (e.from.OfPlan? ==> Turn(past, e.order, e.from.plan, e.from.place))
  }

  ghost predicate Allowed(past: Log, e: LogEntry) {
    && (e.Sent? ==> MaySend(past, e))
    && (e.ReadAsked? ==> AskedUnder(past, e.epoch))
    && (e.ReadApplied? ==> AskedAfterDoubts(past, e.epoch))
  }

  ghost predicate Lawful(log: Log) {
    forall j :: 0 <= j < |log| ==> Allowed(log[..j], log[j])
  }

  lemma LawfulGrows(log: Log, e: LogEntry)
    requires Lawful(log) && Allowed(log, e)
    ensures Lawful(log + [e])
  {
    var now := log + [e];
    forall j | 0 <= j < |now| ensures Allowed(now[..j], now[j]) {
      assert now[..j] == log[..j];
      assert j == |log| ==> log[..j] == log;
    }
  }

  // ---- what one more entry leaves of what was known ----

  lemma SettledGrows(log: Log, e: LogEntry, i: int, call: nat)
    requires i < |log|
    ensures SettledSince(log + [e], i, call) <==> SettledSince(log, i, call) || Settles(e, call)
  {
    var now := log + [e];
    if SettledSince(log, i, call) {
      var m :| 0 <= m < |log| && i < m && Settles(log[m], call);
      assert now[m] == log[m];
    }
    if Settles(e, call) {
      assert now[|log|] == e;
    }
  }

  lemma PlaceSentGrows(log: Log, e: LogEntry, plan: nat, place: nat)
    ensures PlaceSent(log + [e], plan, place) <==> PlaceSent(log, plan, place) || SentAs(e, plan, place)
  {
    var now := log + [e];
    if PlaceSent(log, plan, place) {
      var i :| 0 <= i < |log| && SentAs(log[i], plan, place);
      assert now[i] == log[i];
    }
    if SentAs(e, plan, place) {
      assert now[|log|] == e;
    }
  }

  lemma PlaceDoneGrows(log: Log, e: LogEntry, plan: nat, place: nat)
    requires PlaceDone(log, plan, place)
    ensures PlaceDone(log + [e], plan, place)
  {
    var now := log + [e];
    var i, m :| 0 <= i < m < |log| && SentAs(log[i], plan, place) && log[m] == Answered(log[i].call, Placing, true);
    assert now[i] == log[i] && now[m] == log[m];
  }

  lemma AskedGrows(log: Log, e: LogEntry, epoch: nat)
    requires AskedAfterDoubts(log, epoch) && !e.Doubted?
    ensures AskedAfterDoubts(log + [e], epoch)
  {
    var now := log + [e];
    forall i | 0 <= i < |now| && now[i].Doubted? ensures AskedSince(now, i, epoch) {
      assert log[i] == now[i];
      assert AskedSince(log, i, epoch);
      var k :| i < k < |log| && log[k] == ReadAsked(epoch);
      assert now[k] == log[k];
    }
  }

  lemma AskedNow(log: Log, epoch: nat)
    ensures AskedAfterDoubts(log + [ReadAsked(epoch)], epoch)
  {
    var now := log + [ReadAsked(epoch)];
    forall i | 0 <= i < |now| && now[i].Doubted? ensures AskedSince(now, i, epoch) {
      assert now[|log|] == ReadAsked(epoch);
    }
  }

  // ---- what a lawful log means ----

  /**
   A plan goes out as a prefix of itself: its places in order, no place twice, and no place before
   every lower one was sent and got an Ok on its own call.
   */
  lemma PlansGoInOrder(log: Log, j: nat)
    requires Lawful(log) && j < |log| && log[j].Sent? && log[j].from.OfPlan?
    ensures var p, k := log[j].from.plan, log[j].from.place;
      && p < j && log[p].Planned? && k < |log[p].orders| && log[j].order == log[p].orders[k]
      && (forall i :: 0 <= i < |log| && i != j ==> !SentAs(log[i], p, k))
      && (forall h :: 0 <= h < k ==> PlaceDone(log[..j], p, h))
  {
    var p, k := log[j].from.plan, log[j].from.place;
    assert Allowed(log[..j], log[j]);
    assert log[..j][p] == log[p];
    forall i | 0 <= i < |log| && i != j ensures !SentAs(log[i], p, k) {
      if i < j {
        OncePerPlace(log, i, j, p, k);
      } else {
        OncePerPlace(log, j, i, p, k);
      }
    }
    forall h | 0 <= h < k ensures PlaceDone(log[..j], p, h) {
      EarlierPlacesDone(log, j, h);
    }
  }

  /** Each place before the one just sent was sent and answered, by going back one place at a time. */
  lemma EarlierPlacesDone(log: Log, j: nat, h: nat)
    requires Lawful(log) && j < |log| && log[j].Sent? && log[j].from.OfPlan? && h < log[j].from.place
    ensures PlaceDone(log[..j], log[j].from.plan, h)
    decreases j
  {
    var p, k := log[j].from.plan, log[j].from.place;
    assert Allowed(log[..j], log[j]);
    if h < k - 1 {
      var i, m :| 0 <= i < m < j && SentAs(log[..j][i], p, k - 1) && log[..j][m] == Answered(log[..j][i].call, Placing, true);
      assert log[..j][i] == log[i];
      EarlierPlacesDone(log, i, h);
      PlaceDoneLater(log, i, j, p, h);
    }
  }

  lemma OncePerPlace(log: Log, i: nat, j: nat, plan: nat, place: nat)
    requires Lawful(log) && i < j < |log|
    ensures !(SentAs(log[i], plan, place) && SentAs(log[j], plan, place))
  {
    assert Allowed(log[..j], log[j]);
    assert log[..j][i] == log[i];
  }

  lemma PlaceDoneLater(log: Log, i: nat, j: nat, plan: nat, place: nat)
    requires i <= j <= |log| && PlaceDone(log[..i], plan, place)
    ensures PlaceDone(log[..j], plan, place)
  {
    var past := log[..i];
    var a, m :| 0 <= a < m < |past| && SentAs(past[a], plan, place) && past[m] == Answered(past[a].call, Placing, true);
    assert log[..j][a] == past[a] && log[..j][m] == past[m];
  }

  /** No order of ours is sent twice, and none while the one sent before it is neither answered nor given up. */
  lemma NeverTwice(log: Log, i: nat, j: nat)
    requires Lawful(log) && i < j < |log| && log[i].Sent? && log[j].Sent?
    ensures !SameOwnId(log[i].order, log[j].order)
    ensures exists m :: 0 <= m < |log| && i < m < j && Settles(log[m], log[i].call)
  {
    var past := log[..j];
    assert Allowed(past, log[j]);
    assert past[i] == log[i];
    assert SettledSince(past, i, past[i].call);
    var m :| 0 <= m < |past| && i < m && Settles(past[m], log[i].call);
    assert log[m] == past[m];
  }

  /** While a replay is on nothing is sent, and every order sent carries the proof made for it. */
  lemma NothingSentInReplay(log: Log, j: nat)
    requires Lawful(log) && j < |log| && log[j].Sent?
    ensures !ReplayOn(log[..j]) && log[j].proof.order == log[j].order.Imprint()
  {
    assert Allowed(log[..j], log[j]);
  }

  /** No epoch is asked twice. */
  lemma AskedOnce(log: Log, k: nat, m: nat)
    requires Lawful(log) && k < m < |log| && log[k].ReadAsked?
    ensures log[m] != log[k]
  {
    assert Allowed(log[..m], log[m]);
    assert log[..m][k] == log[k];
  }

  /**
   A read that settles doubts was asked after each of the doubts that arose before it came: its one
   asking lies between the doubt and the read.
   */
  lemma NoStaleRead(log: Log, i: nat, j: nat)
    requires Lawful(log) && i < j < |log| && log[i].Doubted? && log[j].ReadApplied?
    ensures exists k :: 0 <= k < |log| && log[k] == ReadAsked(log[j].epoch)
    ensures forall k :: 0 <= k < |log| && log[k] == ReadAsked(log[j].epoch) ==> i < k < j
  {
    var past := log[..j];
    assert Allowed(past, log[j]);
    assert past[i] == log[i];
    assert AskedSince(past, i, log[j].epoch);
    var k :| 0 <= k < |past| && i < k && past[k] == ReadAsked(log[j].epoch);
    assert log[k] == past[k];
    forall m | 0 <= m < |log| && log[m] == ReadAsked(log[j].epoch) ensures m == k {
      if m < k {
        AskedOnce(log, m, k);
      } else if k < m {
        AskedOnce(log, k, m);
      }
    }
  }
}
