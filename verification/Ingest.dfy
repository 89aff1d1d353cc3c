// What the server does with a batch: drop what it cannot read, refuse what is
// invalid, and let the primary key absorb what it already has. Times are
// milliseconds.
module Ingest {
  import opened Numbers

  const FUTURE_MS := 5 * 60 * 1000
  const PAST_MS := 24 * 60 * 60 * 1000
  const ID_CHARS := 64

  // The primary key of kh.location_points.
  datatype PointKey = PointKey(session: string, id: string, recordedAt: int)

  // A point as it arrives; `plausible` is the verdict on coordinates, accuracy
  // and speed, which no clock changes.
  datatype Item = Malformed | Parsed(id: string, recordedAt: int, plausible: bool)

  datatype Point = Point(id: string, recordedAt: int, plausible: bool)

  datatype Receipt = Receipt(accepted: nat, duplicates: nat, rejected: nat)

  datatype Answer = BatchTooLarge | NoValidPoints | QuotaExceeded | SessionNotLive | Ok(receipt: Receipt)

  // ---- reading the payload ----------------------------------------------------------

  function Normalised(items: seq<Item>): seq<Point> {
    if items == [] then []
    else
      var rest := Normalised(items[..|items| - 1]);
      match items[|items| - 1]
      case Malformed => rest
      case Parsed(id, recordedAt, plausible) => rest + [Point(id[..Min(|id|, ID_CHARS)], recordedAt, plausible)]
  }

  // An item the server can store: readable, at least eight characters of id,
  // plausible, no more than a day before the earlier of the session and now, and
  // no more than five minutes ahead.
  predicate Sound(item: Item, created: int, now: int) {
    && item.Parsed? && |item.id| >= 8 && item.plausible
    && (item.recordedAt >= created - 86400000 || item.recordedAt >= now - 86400000) && item.recordedAt <= now + 300000
  }

  function SoundAt(items: seq<Item>, created: int, now: int): set<nat> {
    set i: nat | i < |items| && Sound(items[i], created, now)
  }

  // The key a sound item is stored under: its id cut to 64 characters.
  function KeyFor(session: string, item: Item): PointKey
    requires item.Parsed?
  {
    PointKey(session, if |item.id| > 64 then item.id[..64] else item.id, item.recordedAt)
  }

  // ---- what counts as valid, and under which key -----------------------------------------

  predicate Valid(p: Point, created: int, now: int) {
    && 8 <= |p.id| <= ID_CHARS && p.plausible
    && Min(created, now) - PAST_MS <= p.recordedAt <= now + FUTURE_MS
  }

  function KeyOf(session: string, p: Point): PointKey { PointKey(session, p.id, p.recordedAt) }

  function ValidCount(points: seq<Point>, created: int, now: int): nat {
    if points == [] then 0
    else ValidCount(points[..|points| - 1], created, now) + if Valid(points[|points| - 1], created, now) then 1 else 0
  }

  function ValidKeys(session: string, points: seq<Point>, created: int, now: int): set<PointKey> {
    set p | p in points && Valid(p, created, now) :: KeyOf(session, p)
  }

  // kh.ingest_points: what is inserted is what the key constraint lets through.
  function Inserted(held: set<PointKey>, session: string, points: seq<Point>, created: int, now: int): set<PointKey> {
    ValidKeys(session, points, created, now) - held
  }

  function ReceiptOf(held: set<PointKey>, session: string, points: seq<Point>, created: int, now: int): Receipt {
    var candidates, accepted := ValidCount(points, created, now), |Inserted(held, session, points, created, now)|;
    Receipt(accepted, Max(candidates - accepted, 0), Max(|points| - candidates, 0))
  }

  class IngestService {
    const session: string
    const created: int
    const maxBatchPoints: int
    var held: set<PointKey>

    constructor (session: string, created: int, maxBatchPoints: int)
      ensures this.session == session && this.created == created && this.maxBatchPoints == maxBatchPoints && held == {}
    {
      this.session, this.created, this.maxBatchPoints := session, created, maxBatchPoints;
      held := {};
    }

    // `quota` and `live` are the answers of the rate limiter and of the session row.
    method Ingest(items: seq<Item>, quota: bool, live: bool, now: int) returns (r: Answer)
      modifies this
      ensures var points := Normalised(items);
        if |items| > maxBatchPoints then r == BatchTooLarge
        else if points == [] then r == NoValidPoints
        else if !quota then r == QuotaExceeded
        else if !live then r == SessionNotLive
        else r.Ok?
      ensures !r.Ok? ==> held == old(held)
      ensures r.Ok? ==>
        && held == old(held) + ValidKeys(session, Normalised(items), created, now)
        && |held| == |old(held)| + r.receipt.accepted
        && r.receipt.accepted + r.receipt.duplicates + r.receipt.rejected == |items|
        && r.receipt.accepted == |Inserted(old(held), session, Normalised(items), created, now)|
      // Item by item: what is not sound is rejected, what is sound is accepted or a
      // duplicate, and afterwards exactly the sound items' keys are held besides
      // those that were.
      ensures r.Ok? ==>
        && r.receipt.rejected == |items| - |SoundAt(items, created, now)|
        && r.receipt.duplicates == |SoundAt(items, created, now)| - r.receipt.accepted
        && forall key :: key in held <==>
          key in old(held) || exists i :: i in SoundAt(items, created, now) && key == KeyFor(session, items[i])
    {
      if |items| > maxBatchPoints {
        return BatchTooLarge;
      }
      var points, malformed := Normalise(items);
      if |points| == 0 {
        return NoValidPoints;
      }
      if !quota {
        return QuotaExceeded;
      }
      if !live {
        return SessionNotLive;
      }
      ReceiptAddsUp(held, session, points, created, now);
      SoundItemsAreValid(session, items, created, now);
      hide ValidKeys, ValidCount, SoundAt, KeyFor;
      var receipt := ReceiptOf(held, session, points, created, now);
      held := held + Inserted(held, session, points, created, now);
      r := Ok(receipt.(rejected := receipt.rejected + malformed));
    }

    method Normalise(items: seq<Item>) returns (points: seq<Point>, malformed: nat)
      ensures points == Normalised(items) && |points| + malformed == |items|
    {
      points, malformed := [], 0;
      for i := 0 to |items|
        invariant points == Normalised(items[..i]) && |points| + malformed == i
      {
        assert items[..i + 1][..i] == items[..i];
        match items[i]
        case Malformed => malformed := malformed + 1;
        case Parsed(id, recordedAt, plausible) =>
          points := points + [Point(id[..Min(|id|, ID_CHARS)], recordedAt, plausible)];
      }
      assert items[..|items|] == items;
    }
  }

  // ---------------------------------------------------------------------------
  // Counting
  // ---------------------------------------------------------------------------

  lemma {:induction false} FewerKeysThanPoints(session: string, points: seq<Point>, created: int, now: int)
    ensures |ValidKeys(session, points, created, now)| <= ValidCount(points, created, now) <= |points|
  {
    if points != [] {
      var n := |points| - 1;
      FewerKeysThanPoints(session, points[..n], created, now);
      OneMorePoint(session, points, created, now);
    }
  }

  lemma OneMorePoint(session: string, points: seq<Point>, created: int, now: int)
    requires points != []
    ensures var n := |points| - 1;
      ValidKeys(session, points, created, now) == ValidKeys(session, points[..n], created, now)
        + if Valid(points[n], created, now) then {KeyOf(session, points[n])} else {}
  {
    var n := |points| - 1;
    assert points == points[..n] + [points[n]];
  }

  // Reading an item and judging the point is judging the item.
  lemma SoundPoint(session: string, item: Item, created: int, now: int)
    requires item.Parsed?
    ensures var p := Point(item.id[..Min(|item.id|, ID_CHARS)], item.recordedAt, item.plausible);
      (Valid(p, created, now) <==> Sound(item, created, now)) && KeyOf(session, p) == KeyFor(session, item)
  {
    assert |item.id| <= 64 ==> item.id[..|item.id|] == item.id;
  }

  lemma {:induction false} SoundItemsAreValid(session: string, items: seq<Item>, created: int, now: int)
    ensures ValidCount(Normalised(items), created, now) == |SoundAt(items, created, now)|
    ensures forall key :: key in ValidKeys(session, Normalised(items), created, now) <==>
      exists i :: i in SoundAt(items, created, now) && key == KeyFor(session, items[i])
  {
    hide Valid, KeyOf, KeyFor, Sound;
    if items != [] {
      var n := |items| - 1;
      var before, item := items[..n], items[n];
      SoundItemsAreValid(session, before, created, now);
      assert SoundAt(items, created, now) == SoundAt(before, created, now) + if Sound(item, created, now) then {n} else {};
      var points := Normalised(items);
      if item.Parsed? {
        SoundPoint(session, item, created, now);
        OneMorePoint(session, points, created, now);
        assert points[..|points| - 1] == Normalised(before);
      } else {
        NotSound(item, created, now);
      }
    }
  }

  lemma NotSound(item: Item, created: int, now: int)
    requires item.Malformed?
    ensures !Sound(item, created, now)
  {
  }

  // Every point is accepted, a duplicate or rejected, and the table gains exactly
  // what is accepted; the guard against a negative count of duplicates never bites.
  lemma ReceiptAddsUp(held: set<PointKey>, session: string, points: seq<Point>, created: int, now: int)
    ensures var r, added := ReceiptOf(held, session, points, created, now), Inserted(held, session, points, created, now);
      && r.accepted + r.duplicates + r.rejected == |points|
      && |held + added| == |held| + r.accepted && held + added == held + ValidKeys(session, points, created, now)
      && r.accepted + r.duplicates == ValidCount(points, created, now)
  {
    FewerKeysThanPoints(session, points, created, now);
    SmallerWithout(ValidKeys(session, points, created, now), held);
    assert held !! Inserted(held, session, points, created, now);
  }

  lemma SmallerWithout(a: set<PointKey>, b: set<PointKey>)
    ensures |a - b| <= |a|
  {
    assert a == (a - b) + (a * b);
  }

  // A batch sent again while its points are still valid adds nothing: all of it
  // counts as duplicates.
  lemma ResendAddsNothing(held: set<PointKey>, session: string, points: seq<Point>, created: int, now: int, later: int)
    requires ValidKeys(session, points, created, later) <= ValidKeys(session, points, created, now)
    ensures var after := held + Inserted(held, session, points, created, now);
      Inserted(after, session, points, created, later) == {}
      && ReceiptOf(after, session, points, created, later) ==
        Receipt(0, ValidCount(points, created, later), Max(|points| - ValidCount(points, created, later), 0))
  {
    hide ValidKeys, ValidCount;
    FewerKeysThanPoints(session, points, created, later);
    var keys, again := ValidKeys(session, points, created, now), ValidKeys(session, points, created, later);
    assert again - (held + (keys - held)) == {};
  }

  lemma KeysOfBoth(session: string, a: seq<Point>, b: seq<Point>, created: int, now: int)
    ensures ValidKeys(session, a + b, created, now) == ValidKeys(session, a, created, now) + ValidKeys(session, b, created, now)
  {
    assert forall p :: p in a + b <==> p in a || p in b;
  }

  // Cutting a batch in two changes neither what is held nor how much is accepted.
  lemma CuttingABatchChangesNothing(held: set<PointKey>, session: string, a: seq<Point>, b: seq<Point>, created: int, now: int)
    ensures var first := Inserted(held, session, a, created, now);
      var second := Inserted(held + first, session, b, created, now);
      held + Inserted(held, session, a + b, created, now) == held + first + second
      && |Inserted(held, session, a + b, created, now)| == |first| + |second|
  {
    KeysOfBoth(session, a, b, created, now);
    var first := Inserted(held, session, a, created, now);
    var second := Inserted(held + first, session, b, created, now);
    assert Inserted(held, session, a + b, created, now) == first + second && first !! second;
  }

  // ---------------------------------------------------------------------------
  // Is a refusal final?
  // ---------------------------------------------------------------------------

  // A refused point is refused for good, as the phone supposes when it deletes
  // it, exactly unless its only fault is to be too far ahead of the server.
  lemma RefusalIsFinalExactlyWhen(p: Point, created: int, now: int)
    requires created <= now && !Valid(p, created, now)
    ensures (forall later :: later >= now ==> !Valid(p, created, later))
      <==> !(8 <= |p.id| <= ID_CHARS && p.plausible && p.recordedAt > now + FUTURE_MS)
  {
    if 8 <= |p.id| <= ID_CHARS && p.plausible && p.recordedAt > now + FUTURE_MS {
      assert Valid(p, created, p.recordedAt);
    }
  }
}
