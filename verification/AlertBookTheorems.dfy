/** Identifiers stay unique through every change of the book, and what repairing a book twice does. */
module AlertBookTheorems {
  import opened Wrappers
  import opened AlertEval
  import opened AlertBook

  lemma {:induction false} NewIdsUpTo(alerts: seq<Alert>, i: nat, j: nat)
    requires i < j <= |alerts|
    ensures NewIds(alerts, i) <= NewIds(alerts, j)
    ensures NeedsNewId(alerts, i) ==> NewIds(alerts, i) < NewIds(alerts, j)
    decreases j
  {
    if i + 1 < j {
      NewIdsUpTo(alerts, i, j - 1);
    }
  }

  lemma RenumberedDiffer(alerts: seq<Alert>, next: nat, i: nat, j: nat)
    requires i < j < |alerts| && forall k | 0 <= k < |alerts| :: alerts[k].id < next
    ensures RenumberedAt(alerts, next, i).id != RenumberedAt(alerts, next, j).id
  {
    NewIdsUpTo(alerts, i, j);
  }

  /**
   After a repair every identifier is unique, not zero and under the next one, whatever the file
   said; the first alert to have an identifier keeps it; and nothing else of an alert changes.
   */
  lemma NormalizedIsSound(b: Book)
    requires Normalized(b).Some?
    ensures var after, alerts := Normalized(b).value, Selected(b.alerts);
      && Sound(after) && |after.alerts| == |alerts| <= MAX_SAVED_ALERTS && |after.history| <= MAX_HISTORY
      && after.nextId >= b.nextId
      && forall i | 0 <= i < |alerts| ::
           after.alerts[i].(id := 0) == alerts[i].(id := 0)
           && (!NeedsNewId(alerts, i) ==> after.alerts[i] == alerts[i])
  {
    var start := if b.nextId >= 1 then b.nextId else 1;
    NextIsOver(Selected(b.alerts), start);
    RenumberedIsSound(Selected(b.alerts), NextAfter(Selected(b.alerts), start));
  }

  lemma RenumberedIsSound(alerts: seq<Alert>, next: nat)
    requires next >= 1 && forall k | 0 <= k < |alerts| :: alerts[k].id < next
    ensures var after := Renumbered(alerts, next);
      && Distinct(after)
      && forall i | 0 <= i < |alerts| ::
           0 < after[i].id < next + NewIds(alerts, |alerts|) && after[i].(id := 0) == alerts[i].(id := 0)
           && (!NeedsNewId(alerts, i) ==> after[i] == alerts[i])
  {
    var after := Renumbered(alerts, next);
    forall i | 0 <= i < |alerts| ensures 0 < after[i].id < next + NewIds(alerts, |alerts|) {
      NewIdsUpTo(alerts, i, |alerts|);
    }
    forall i, j | 0 <= i < j < |alerts| ensures after[i].id != after[j].id {
      RenumberedDiffer(alerts, next, i, j);
    }
  }

  /** A repair goes through exactly when the largest identifier and the new ones after it fit in 64 bits. */
  lemma WhenNormalizedFits(b: Book)
    ensures var alerts := Selected(b.alerts);
            var again := NewIds(alerts, |alerts|);
      Normalized(b).Some? <==>
        && (if b.nextId >= 1 then b.nextId else 1) + again <= U64_MAX
        && forall i | 0 <= i < |alerts| :: alerts[i].id + 1 + again <= U64_MAX
  {
    var alerts, start := Selected(b.alerts), if b.nextId >= 1 then b.nextId else 1;
    NextIsOver(alerts, start);
  }

  // ---- every change keeps it ----

  /** A new identifier is over all the others, those that were removed too. */
  lemma AddedIsSound(b: Book, alert: Alert)
    requires Sound(b)
    ensures Sound(Added(b, alert)) && Find(b.alerts, IdFor(b)).None?
    ensures Find(Added(b, alert).alerts, IdFor(b)) == Some(|b.alerts|)
    ensures |Added(b, alert).alerts| == |b.alerts| + 1 && Added(b, alert).alerts[..|b.alerts|] == b.alerts
  {
    assert Added(b, alert).alerts[..|b.alerts|] == b.alerts;
  }

  lemma InsertKeeps(b: Book, alert: Alert, limit: nat)
    requires Sound(b) && Insert(b, alert, limit).Some?
    ensures Sound(Insert(b, alert, limit).value.0)
    ensures Insert(b, alert, limit).value.1.None? ==> Insert(b, alert, limit).value.0 == b
    ensures Insert(b, alert, limit).value.1.Some? ==>
              Find(b.alerts, Insert(b, alert, limit).value.1.value).None?
  {
    AddedIsSound(b, alert);
  }

  lemma FireKeeps(b: Book, id: nat, value: Num, now: int, bar: Option<int>)
    requires Sound(b)
    ensures Sound(SetBarKey(Fire(b, id, value, now), id, bar))
  {
  }

  lemma ExpireKeeps(b: Book, now: int)
    requires Sound(b)
    ensures Sound(b.(alerts := Expired(b.alerts, now)))
  {
  }

  lemma {:induction false} WithoutHolds(alerts: seq<Alert>, id: nat, a: Alert)
    ensures a in Without(alerts, id) <==> a in alerts && a.id != id
  {
    if alerts != [] {
      WithoutHolds(alerts[..|alerts| - 1], id, a);
      assert a in alerts <==> a in alerts[..|alerts| - 1] || a == alerts[|alerts| - 1];
    }
  }

  lemma {:induction false} WithoutIsDistinct(alerts: seq<Alert>, id: nat)
    requires Distinct(alerts)
    ensures Distinct(Without(alerts, id))
  {
    if alerts != [] {
      var rest, last := alerts[..|alerts| - 1], alerts[|alerts| - 1];
      WithoutIsDistinct(rest, id);
      var kept := Without(rest, id);
      forall i | 0 <= i < |kept| ensures kept[i].id != last.id {
        WithoutHolds(rest, id, kept[i]);
        assert kept[i] in rest;
      }
    }
  }

  /** An identifier that was removed is never given again: the next one stays over it. */
  lemma RemoveKeeps(b: Book, id: nat)
    requires Sound(b)
    ensures Sound(Remove(b, id)) && Find(Remove(b, id).alerts, id).None? && Remove(b, id).nextId == b.nextId
    ensures forall a :: a in Remove(b, id).alerts <==> a in b.alerts && a.id != id
  {
    var after := Remove(b, id);
    WithoutIsDistinct(b.alerts, id);
    forall a ensures a in after.alerts <==> a in b.alerts && a.id != id {
      WithoutHolds(b.alerts, id, a);
    }
    forall i | 0 <= i < |after.alerts| ensures 0 < after.alerts[i].id < after.nextId && after.alerts[i].id != id {
      assert after.alerts[i] in b.alerts;
    }
  }

  // ---- repairing twice ----

  /** A measure whose level is not a number: it was let through because it had no level to need. */
  predicate LosesItsPlace(a: Alert) {
    a.source.IsMeasure() && a.price.NotFinite? && !(a.source.Spread? && a.condition.MovesBy?)
  }

  lemma RepairedTwice(a: Alert)
    requires IsKept(a)
    ensures Repaired(Repaired(a)) == Repaired(a)
    ensures IsKept(Repaired(a)) <==> !LosesItsPlace(a)
    ensures LosesItsPlace(Repaired(a)) == LosesItsPlace(a)
  {
  }

  predicate AllKept(alerts: seq<Alert>) {
    forall i | 0 <= i < |alerts| :: IsKept(alerts[i])
  }

  lemma {:induction false} KeptIsAll(alerts: seq<Alert>)
    ensures AllKept(Kept(alerts))
    ensures AllKept(alerts) ==> Kept(alerts) == alerts
    ensures |Kept(alerts)| <= |alerts| && (|Kept(alerts)| == |alerts| ==> AllKept(alerts))
  {
    if alerts != [] {
      KeptIsAll(alerts[..|alerts| - 1]);
      assert alerts == alerts[..|alerts| - 1] + [alerts[|alerts| - 1]];
    }
  }

  lemma {:induction false} NoneToGive(alerts: seq<Alert>, n: nat)
    requires n <= |alerts| && Distinct(alerts) && forall i | 0 <= i < |alerts| :: alerts[i].id > 0
    ensures NewIds(alerts, n) == 0
    decreases n
  {
    if n > 0 {
      NoneToGive(alerts, n - 1);
    }
  }

  lemma SoundIsRenumbered(b: Book)
    requires Sound(b) && b.nextId >= 1
    ensures NextAfter(b.alerts, b.nextId) == b.nextId && NewIds(b.alerts, |b.alerts|) == 0
    ensures Renumbered(b.alerts, b.nextId) == b.alerts
  {
    NextIsOver(b.alerts, b.nextId);
    NoneToGive(b.alerts, |b.alerts|);
  }

  /**
   Repairing a repaired book changes nothing, except that it drops an alert on a spread or a profit
   whose level is not a number and that only came through the first time because its condition, or
   what it was compared with, needed no level: those exactly.
   */
  lemma RepairingTwice(b: Book)
    requires Normalized(b).Some?
    ensures Normalized(Normalized(b).value) == Normalized(b)
       <==> forall i | 0 <= i < |Selected(b.alerts)| :: !LosesItsPlace(Selected(b.alerts)[i])
  {
    var once := Normalized(b).value;
    NormalizedIsSound(b);
    SecondLook(b);
    KeptIsAll(once.alerts);
    if AllKept(once.alerts) {
      NothingToRepair(once);
    } else if Normalized(once).Some? {
      SomeAreDropped(once);
    }
  }

  lemma NothingToRepair(once: Book)
    requires Sound(once) && AllKept(once.alerts) && |once.alerts| <= MAX_SAVED_ALERTS && |once.history| <= MAX_HISTORY
    requires once.version == SCHEMA_VERSION && 1 <= once.nextId <= U64_MAX
    requires forall i | 0 <= i < |once.alerts| :: Repaired(once.alerts[i]) == once.alerts[i]
    ensures Normalized(once) == Some(once)
  {
    AllIsSelected(once.alerts);
    SoundIsRenumbered(once);
  }

  lemma AllIsSelected(alerts: seq<Alert>)
    requires AllKept(alerts) && |alerts| <= MAX_SAVED_ALERTS
    requires forall i | 0 <= i < |alerts| :: Repaired(alerts[i]) == alerts[i]
    ensures Selected(alerts) == alerts
  {
    KeptIsAll(alerts);
    assert Truncated(Kept(alerts), MAX_SAVED_ALERTS) == alerts;
  }

  lemma SomeAreDropped(once: Book)
    requires Normalized(once).Some? && !AllKept(once.alerts)
    ensures |Normalized(once).value.alerts| < |once.alerts|
  {
    KeptIsAll(once.alerts);
    NormalizedIsSound(once);
  }

  lemma SecondLook(b: Book)
    requires Normalized(b).Some?
    ensures var once, alerts := Normalized(b).value.alerts, Selected(b.alerts);
      |once| == |alerts| && forall i | 0 <= i < |once| ::
        Repaired(once[i]) == once[i] && (IsKept(once[i]) <==> !LosesItsPlace(alerts[i]))
  {
    var once, alerts := Normalized(b).value.alerts, Selected(b.alerts);
    var chosen := Truncated(Kept(b.alerts), MAX_SAVED_ALERTS);
    KeptIsAll(b.alerts);
    forall i | 0 <= i < |once|
      ensures Repaired(once[i]) == once[i]
      ensures IsKept(once[i]) <==> !LosesItsPlace(alerts[i])
    {
      assert IsKept(chosen[i]);
      RepairedTwice(chosen[i]);
      assert alerts[i] == Repaired(chosen[i]);
      SameButId(alerts[i], once[i]);
    }
  }

  lemma SameButId(a: Alert, b: Alert)
    requires a.(id := 0) == b.(id := 0)
    ensures IsKept(a) == IsKept(b) && (Repaired(a) == a <==> Repaired(b) == b) && LosesItsPlace(a) == LosesItsPlace(b)
  {
    assert Repaired(a).(id := 0) == Repaired(b).(id := 0);
  }

  /** An alert on the profit of the account that waited for a move, with a level that is not a number. */
  const UNSURE := Alert(1, 0, Pnl(Account), NotFinite, Finite(0.0), None, MovesBy, EveryTime, Finite(0.0), 0, M15, false,
                        true, None, 0, 0, None, None, None)

  /** The first repair of this book keeps its alert, the second drops it. */
  lemma ARepairMayDropLater()
    ensures var b := Book(SCHEMA_VERSION, 2, [UNSURE], []);
      && Normalized(b).Some? && |Normalized(b).value.alerts| == 1
      && Normalized(Normalized(b).value) == Some(Book(SCHEMA_VERSION, 2, [], []))
  {
    var b := Book(SCHEMA_VERSION, 2, [UNSURE], []);
    assert Kept(b.alerts) == [UNSURE];
    assert NextAfter(Selected(b.alerts), 2) == 2 && NewIds(Selected(b.alerts), 1) == 0;
    var once := Normalized(b).value;
    assert once.alerts == [Repaired(UNSURE)];
    assert !IsKept(Repaired(UNSURE)) && Kept([]) == [] && Kept(once.alerts) == [];
    assert Selected(once.alerts) == [] && Renumbered([], 2) == [];
  }
}
