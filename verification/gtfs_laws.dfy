/**
 * What the GTFS Realtime codec promises, proved about the model: the output
 * of every `write_message` decodes back to the record it came from (so the
 * fields a writer omits are exactly those equal to where `from_reader`
 * starts), every written item carries a tag that agrees with its wire type,
 * `get_size` is the size of what the writer emits, and the readers keep the
 * last value of a plain field, append repeated fields in stream order and
 * step over unknown fields.
 */
module RealtimeCodecLaws {
  import opened Wrappers
  import opened GtfsWire
  import opened RealtimeEnums
  import opened RealtimeMessages

  // ---------------- item lists ----------------

  predicate AllWellFormed(items: seq<Field>) {
    forall i :: 0 <= i < |items| ==> WellFormed(items[i])
  }

  lemma AllWellFormedAppend(a: seq<Field>, b: seq<Field>)
    requires AllWellFormed(a) && AllWellFormed(b)
    ensures AllWellFormed(a + b)
  {
    forall i | 0 <= i < |a + b|
      ensures WellFormed((a + b)[i])
    {
      if i < |a| {
        assert (a + b)[i] == a[i];
      } else {
        assert (a + b)[i] == b[i - |a|];
      }
    }
  }

  lemma {:induction false} RepeatedWellFormed<T>(xs: seq<T>, tag: nat, write: T -> WireValue)
    requires forall x :: tag % 8 == WireType(write(x))
    ensures AllWellFormed(Repeated(xs, tag, write))
    decreases |xs|
  {
    if xs != [] {
      RepeatedWellFormed(xs[1..], tag, write);
      AllWellFormedAppend([Field(tag, write(xs[0]))], Repeated(xs[1..], tag, write));
    }
  }

  lemma EmitSize<T>(o: Option<T>, tag: nat, write: T -> WireValue, size: T -> nat)
    requires o.Some? ==> ItemSize(Field(tag, write(o.value))) == size(o.value)
    ensures EncodedSize(Emit(o, tag, write)) == OptSize(o, size)
  {
    if o.Some? {
      EncodedSizeSingle(Field(tag, write(o.value)));
    }
  }

  lemma EmitIfSize(cond: bool, f: Field)
    ensures EncodedSize(EmitIf(cond, f)) == if cond then ItemSize(f) else 0
  {
    if cond {
      EncodedSizeSingle(f);
    }
  }

  lemma {:induction false} RepeatedSize<T>(xs: seq<T>, tag: nat, write: T -> WireValue, size: T -> nat)
    requires forall i :: 0 <= i < |xs| ==> ItemSize(Field(tag, write(xs[i]))) == size(xs[i])
    ensures EncodedSize(Repeated(xs, tag, write)) == SumSizes(xs, size)
    decreases |xs|
  {
    if xs != [] {
      forall i | 0 <= i < |xs[1..]|
        ensures ItemSize(Field(tag, write(xs[1..][i]))) == size(xs[1..][i])
      {
        assert xs[1..][i] == xs[i + 1];
      }
      RepeatedSize(xs[1..], tag, write, size);
      EncodedSizeAppend([Field(tag, write(xs[0]))], Repeated(xs[1..], tag, write));
      EncodedSizeSingle(Field(tag, write(xs[0])));
    }
  }

  // ---------------- folds ----------------

  /** `push` applied to each element in turn. */
  function PushAll<M, T>(push: (M, T) -> M, acc: M, xs: seq<T>): M
    decreases |xs|
  {
    if xs == [] then acc else PushAll(push, push(acc, xs[0]), xs[1..])
  }

  /** A run of items of one repeated field pushes each payload, in stream order. */
  lemma {:induction false} FoldRepeated<M, T>(step: (M, Field) -> Decoded<M>, acc: M, xs: seq<T>,
                                              tag: nat, write: T -> WireValue, push: (M, T) -> M, rest: seq<Field>)
    requires forall m: M, x: T :: step(m, Field(tag, write(x))) == Ok(push(m, x))
    ensures Fold(step, acc, Repeated(xs, tag, write) + rest) == Fold(step, PushAll(push, acc, xs), rest)
    decreases |xs|
  {
    if xs == [] {
      assert Repeated(xs, tag, write) + rest == rest;
    } else {
      var head := [Field(tag, write(xs[0]))];
      var tail := Repeated(xs[1..], tag, write) + rest;
      assert Repeated(xs, tag, write) + rest == head + tail;
      FoldEmit(step, acc, push(acc, xs[0]), head, tail);
      FoldRepeated(step, push(acc, xs[0]), xs[1..], tag, write, push, rest);
    }
  }

  /** An item that every record steps over unchanged can be dropped from the stream. */
  lemma FoldSkip<M>(step: (M, Field) -> Decoded<M>, acc: M, a: seq<Field>, f: Field, b: seq<Field>)
    requires forall m :: step(m, f) == Ok(m)
    ensures Fold(step, acc, a + [f] + b) == Fold(step, acc, a + b)
  {
    FoldAppend(step, acc, a, [f] + b);
    FoldAppend(step, acc, a, b);
    assert a + [f] + b == a + ([f] + b);
    match Fold(step, acc, a)
    case Err(_) =>
    case Ok(m) => FoldEmit(step, m, m, [f], b);
  }

  /** One more item after a stream: the record so far, taken one step further. */
  lemma FoldSnoc<M>(step: (M, Field) -> Decoded<M>, acc: M, a: seq<Field>, f: Field)
    ensures Fold(step, acc, a + [f]) ==
            match Fold(step, acc, a)
            case Err(e) => Err(e)
            case Ok(m) => step(m, f)
  {
    FoldAppend(step, acc, a, [f]);
    match Fold(step, acc, a)
    case Err(_) =>
    case Ok(m) =>
      match step(m, f)
      case Err(_) =>
      case Ok(_) => assert [f][1..] == [];
  }

  /** The record after one more item, or the error met before it. */
  function Then<M>(step: (M, Field) -> Decoded<M>, r: Decoded<M>, f: Field): Decoded<M> {
    match r
    case Err(e) => Err(e)
    case Ok(m) => step(m, f)
  }

  /**
   * An item that never fails and commutes with every item after it can be
   * moved to the end of the stream.
   */
  lemma {:induction false} FoldCommute<M>(step: (M, Field) -> Decoded<M>, acc: M, a: seq<Field>, f: Field, b: seq<Field>)
    requires forall m: M :: step(m, f).Ok?
    requires forall m: M, g | g in b :: step(step(m, f).value, g) == Then(step, step(m, g), f)
    ensures Fold(step, acc, a + [f] + b) == Fold(step, acc, a + b + [f])
    decreases |b|
  {
    if b == [] {
      assert a + [f] + b == a + b + [f];
    } else {
      var b', g := b[..|b| - 1], b[|b| - 1];
      assert b == b' + [g];
      assert a + [f] + b == (a + [f] + b') + [g];
      assert a + b + [f] == (a + b' + [g]) + [f];
      assert a + b' + [g] == (a + b') + [g];
      FoldCommute(step, acc, a, f, b');
      FoldSnoc(step, acc, a + [f] + b', g);
      FoldSnoc(step, acc, a + b', f);
      FoldSnoc(step, acc, a + b' + [g], f);
      FoldSnoc(step, acc, a + b', g);
      match Fold(step, acc, a + b')
      case Err(_) =>
      case Ok(m) =>
        assert g in b;
        assert step(step(m, f).value, g) == Then(step, step(m, g), f);
    }
  }

  /**
   * A later item that overrides an earlier one (whatever record the earlier
   * one left, the later one leaves the same) makes the earlier one
   * irrelevant, once it is known not to fail.
   */
  lemma FoldOverride<M>(step: (M, Field) -> Decoded<M>, acc: M, a: seq<Field>, f1: Field, b: seq<Field>, f2: Field)
    requires forall m: M :: step(m, f1).Ok?
    requires forall m: M, g | g in b :: step(step(m, f1).value, g) == Then(step, step(m, g), f1)
    requires forall m: M :: step(step(m, f1).value, f2) == step(m, f2)
    ensures Fold(step, acc, a + [f1] + b + [f2]) == Fold(step, acc, a + b + [f2])
  {
    FoldCommute(step, acc, a, f1, b);
    FoldSnoc(step, acc, a + [f1] + b, f2);
    FoldSnoc(step, acc, a + b + [f1], f2);
    FoldSnoc(step, acc, a + b, f1);
    FoldSnoc(step, acc, a + b, f2);
    match Fold(step, acc, a + b)
    case Err(_) =>
    case Ok(m) => assert step(step(m, f1).value, f2) == step(m, f2);
  }

  // ---------------- the repeated fields ----------------

  function AppendActivePeriod(m: Alert, r: RawMessage): Alert {
    m.(activePeriod := m.activePeriod + [r])
  }

  function AppendInformedEntity(m: Alert, r: RawMessage): Alert {
    m.(informedEntity := m.informedEntity + [r])
  }

  function AppendEntity(m: FeedMessage, e: FeedEntity): FeedMessage {
    m.(entity := m.entity + [e])
  }

  lemma AppendActivePeriodStep(m: Alert, r: RawMessage)
    ensures AlertStep(m, Field(10, WriteNested(r))) == Ok(AppendActivePeriod(m, r))
  {
  }

  lemma AppendInformedEntityStep(m: Alert, r: RawMessage)
    ensures AlertStep(m, Field(42, WriteNested(r))) == Ok(AppendInformedEntity(m, r))
  {
  }

  lemma AppendEntityStep(m: FeedMessage, e: FeedEntity)
    ensures FeedMessageStep(m, Field(18, WriteFeedEntity(e))) == Ok(AppendEntity(m, e))
  {
    FeedEntityRoundTrip(e);
  }

  lemma {:induction false} AppendActivePeriodAll(acc: Alert, xs: seq<RawMessage>)
    ensures PushAll(AppendActivePeriod, acc, xs) == acc.(activePeriod := acc.activePeriod + xs)
    decreases |xs|
  {
    if xs == [] {
      assert acc.activePeriod + xs == acc.activePeriod;
    } else {
      AppendActivePeriodAll(AppendActivePeriod(acc, xs[0]), xs[1..]);
      assert acc.activePeriod + [xs[0]] + xs[1..] == acc.activePeriod + xs;
    }
  }

  lemma {:induction false} AppendInformedEntityAll(acc: Alert, xs: seq<RawMessage>)
    ensures PushAll(AppendInformedEntity, acc, xs) == acc.(informedEntity := acc.informedEntity + xs)
    decreases |xs|
  {
    if xs == [] {
      assert acc.informedEntity + xs == acc.informedEntity;
    } else {
      AppendInformedEntityAll(AppendInformedEntity(acc, xs[0]), xs[1..]);
      assert acc.informedEntity + [xs[0]] + xs[1..] == acc.informedEntity + xs;
    }
  }

  lemma {:induction false} AppendEntityAll(acc: FeedMessage, xs: seq<FeedEntity>)
    ensures PushAll(AppendEntity, acc, xs) == acc.(entity := acc.entity + xs)
    decreases |xs|
  {
    if xs == [] {
      assert acc.entity + xs == acc.entity;
    } else {
      AppendEntityAll(AppendEntity(acc, xs[0]), xs[1..]);
      assert acc.entity + [xs[0]] + xs[1..] == acc.entity + xs;
    }
  }

  lemma FeedMessageEntitySizes(xs: seq<FeedEntity>)
    ensures EncodedSize(Repeated(xs, 18, WriteFeedEntity)) == SumSizes(xs, (x: FeedEntity) => 1 + SizeOfLen(FeedEntitySize(x)))
  {
    forall i | 0 <= i < |xs|
      ensures ItemSize(Field(18, WriteFeedEntity(xs[i]))) == 1 + SizeOfLen(FeedEntitySize(xs[i]))
    {
      FeedEntitySizeMatchesEncoding(xs[i]);
    }
    RepeatedSize(xs, 18, WriteFeedEntity, (x: FeedEntity) => 1 + SizeOfLen(FeedEntitySize(x)));
  }

  // ---------------- Position ----------------

  lemma PositionItemLatitude(acc: Position, p: Position, rest: seq<Field>)
    ensures Fold(PositionStep, acc, [Field(13, WriteFloat(p.latitude))] + rest) == Fold(PositionStep, acc.(latitude := p.latitude), rest)
  {
    FoldEmit(PositionStep, acc, acc.(latitude := p.latitude), [Field(13, WriteFloat(p.latitude))], rest);
  }

  lemma PositionItemLongitude(acc: Position, p: Position, rest: seq<Field>)
    ensures Fold(PositionStep, acc, [Field(21, WriteFloat(p.longitude))] + rest) == Fold(PositionStep, acc.(longitude := p.longitude), rest)
  {
    FoldEmit(PositionStep, acc, acc.(longitude := p.longitude), [Field(21, WriteFloat(p.longitude))], rest);
  }

  lemma PositionItemBearing(acc: Position, p: Position, rest: seq<Field>)
    requires acc.bearing == PositionStart().bearing
    ensures Fold(PositionStep, acc, Emit(p.bearing, 29, WriteFloat) + rest) == Fold(PositionStep, acc.(bearing := p.bearing), rest)
  {
    FoldEmit(PositionStep, acc, acc.(bearing := p.bearing), Emit(p.bearing, 29, WriteFloat), rest);
  }

  lemma PositionItemOdometer(acc: Position, p: Position, rest: seq<Field>)
    requires acc.odometer == PositionStart().odometer
    ensures Fold(PositionStep, acc, Emit(p.odometer, 33, WriteDouble) + rest) == Fold(PositionStep, acc.(odometer := p.odometer), rest)
  {
    FoldEmit(PositionStep, acc, acc.(odometer := p.odometer), Emit(p.odometer, 33, WriteDouble), rest);
  }

  lemma PositionItemSpeed(acc: Position, p: Position, rest: seq<Field>)
    requires acc.speed == PositionStart().speed
    ensures Fold(PositionStep, acc, Emit(p.speed, 45, WriteFloat) + rest) == Fold(PositionStep, acc.(speed := p.speed), rest)
  {
    FoldEmit(PositionStep, acc, acc.(speed := p.speed), Emit(p.speed, 45, WriteFloat), rest);
  }

  /** Decoding what the writer emits gives back the record. */
  lemma PositionRoundTrip(p: Position)
    ensures DecodePosition(EncodePosition(p)) == Ok(p)
  {
    var a0 := PositionStart();
    var a1 := a0.(latitude := p.latitude);
    var a2 := a1.(longitude := p.longitude);
    var a3 := a2.(bearing := p.bearing);
    var a4 := a3.(odometer := p.odometer);
    var a5 := a4.(speed := p.speed);
    var e1 := [Field(13, WriteFloat(p.latitude))];
    var e2 := [Field(21, WriteFloat(p.longitude))];
    var e3 := Emit(p.bearing, 29, WriteFloat);
    var e4 := Emit(p.odometer, 33, WriteDouble);
    var e5 := Emit(p.speed, 45, WriteFloat);
    var r5: seq<Field> := [];
    var r4 := e5 + r5;
    var r3 := e4 + r4;
    var r2 := e3 + r3;
    var r1 := e2 + r2;
    PositionItemLatitude(a0, p, r1);
    PositionItemLongitude(a1, p, r2);
    PositionItemBearing(a2, p, r3);
    PositionItemOdometer(a3, p, r4);
    PositionItemSpeed(a4, p, r5);
    assert a5 == p;
  }

  lemma PositionItemSizeLatitude(p: Position)
    ensures EncodedSize([Field(13, WriteFloat(p.latitude))]) == 1 + 4
  {
    EncodedSizeSingle(Field(13, WriteFloat(p.latitude)));
  }

  lemma PositionItemSizeLongitude(p: Position)
    ensures EncodedSize([Field(21, WriteFloat(p.longitude))]) == 1 + 4
  {
    EncodedSizeSingle(Field(21, WriteFloat(p.longitude)));
  }

  lemma PositionItemSizeBearing(p: Position)
    ensures EncodedSize(Emit(p.bearing, 29, WriteFloat)) == OptSize(p.bearing, _ => 1 + 4)
  {
    EmitSize(p.bearing, 29, WriteFloat, _ => 1 + 4);
  }

  lemma PositionItemSizeOdometer(p: Position)
    ensures EncodedSize(Emit(p.odometer, 33, WriteDouble)) == OptSize(p.odometer, _ => 1 + 8)
  {
    EmitSize(p.odometer, 33, WriteDouble, _ => 1 + 8);
  }

  lemma PositionItemSizeSpeed(p: Position)
    ensures EncodedSize(Emit(p.speed, 45, WriteFloat)) == OptSize(p.speed, _ => 1 + 4)
  {
    EmitSize(p.speed, 45, WriteFloat, _ => 1 + 4);
  }

  /** `get_size` is the number of bytes `write_message` produces. */
  lemma PositionSizeMatchesEncoding(p: Position)
    ensures PositionSize(p) == EncodedSize(EncodePosition(p))
    ensures PositionSize(p) == 10
      + (if p.bearing.Some? then 5 else 0)
      + (if p.odometer.Some? then 9 else 0)
      + (if p.speed.Some? then 5 else 0)
  {
    var e1 := [Field(13, WriteFloat(p.latitude))];
    var e2 := [Field(21, WriteFloat(p.longitude))];
    var e3 := Emit(p.bearing, 29, WriteFloat);
    var e4 := Emit(p.odometer, 33, WriteDouble);
    var e5 := Emit(p.speed, 45, WriteFloat);
    var r5: seq<Field> := [];
    var r4 := e5 + r5;
    var r3 := e4 + r4;
    var r2 := e3 + r3;
    var r1 := e2 + r2;
    PositionItemSizeLatitude(p);
    EncodedSizeAppend(e1, r1);
    PositionItemSizeLongitude(p);
    EncodedSizeAppend(e2, r2);
    PositionItemSizeBearing(p);
    EncodedSizeAppend(e3, r3);
    PositionItemSizeOdometer(p);
    EncodedSizeAppend(e4, r4);
    PositionItemSizeSpeed(p);
    EncodedSizeAppend(e5, r5);
  }

  lemma PositionItemWellFormedLatitude(p: Position)
    ensures AllWellFormed([Field(13, WriteFloat(p.latitude))])
  {
  }

  lemma PositionItemWellFormedLongitude(p: Position)
    ensures AllWellFormed([Field(21, WriteFloat(p.longitude))])
  {
  }

  lemma PositionItemWellFormedBearing(p: Position)
    ensures AllWellFormed(Emit(p.bearing, 29, WriteFloat))
  {
  }

  lemma PositionItemWellFormedOdometer(p: Position)
    ensures AllWellFormed(Emit(p.odometer, 33, WriteDouble))
  {
  }

  lemma PositionItemWellFormedSpeed(p: Position)
    ensures AllWellFormed(Emit(p.speed, 45, WriteFloat))
  {
  }

  /** Every item the writer emits has a tag whose low three bits name its payload's wire type. */
  lemma PositionEncodingWellFormed(p: Position)
    ensures AllWellFormed(EncodePosition(p))
  {
    var e1 := [Field(13, WriteFloat(p.latitude))];
    var e2 := [Field(21, WriteFloat(p.longitude))];
    var e3 := Emit(p.bearing, 29, WriteFloat);
    var e4 := Emit(p.odometer, 33, WriteDouble);
    var e5 := Emit(p.speed, 45, WriteFloat);
    var r5: seq<Field> := [];
    var r4 := e5 + r5;
    var r3 := e4 + r4;
    var r2 := e3 + r3;
    var r1 := e2 + r2;
    PositionItemWellFormedLatitude(p);
    PositionItemWellFormedLongitude(p);
    PositionItemWellFormedBearing(p);
    PositionItemWellFormedOdometer(p);
    PositionItemWellFormedSpeed(p);
    AllWellFormedAppend(e5, r5);
    AllWellFormedAppend(e4, r4);
    AllWellFormedAppend(e3, r3);
    AllWellFormedAppend(e2, r2);
    AllWellFormedAppend(e1, r1);
  }

  // ---------------- VehicleDescriptor ----------------

  lemma VehicleDescriptorItemId(acc: VehicleDescriptor, d: VehicleDescriptor, rest: seq<Field>)
    requires acc.id == VehicleDescriptorStart().id
    ensures Fold(VehicleDescriptorStep, acc, Emit(d.id, 10, WriteString) + rest) == Fold(VehicleDescriptorStep, acc.(id := d.id), rest)
  {
    FoldEmit(VehicleDescriptorStep, acc, acc.(id := d.id), Emit(d.id, 10, WriteString), rest);
  }

  lemma VehicleDescriptorItemVehicleLabel(acc: VehicleDescriptor, d: VehicleDescriptor, rest: seq<Field>)
    requires acc.vehicleLabel == VehicleDescriptorStart().vehicleLabel
    ensures Fold(VehicleDescriptorStep, acc, Emit(d.vehicleLabel, 18, WriteString) + rest) == Fold(VehicleDescriptorStep, acc.(vehicleLabel := d.vehicleLabel), rest)
  {
    FoldEmit(VehicleDescriptorStep, acc, acc.(vehicleLabel := d.vehicleLabel), Emit(d.vehicleLabel, 18, WriteString), rest);
  }

  lemma VehicleDescriptorItemLicensePlate(acc: VehicleDescriptor, d: VehicleDescriptor, rest: seq<Field>)
    requires acc.licensePlate == VehicleDescriptorStart().licensePlate
    ensures Fold(VehicleDescriptorStep, acc, Emit(d.licensePlate, 26, WriteString) + rest) == Fold(VehicleDescriptorStep, acc.(licensePlate := d.licensePlate), rest)
  {
    FoldEmit(VehicleDescriptorStep, acc, acc.(licensePlate := d.licensePlate), Emit(d.licensePlate, 26, WriteString), rest);
  }

  /** Decoding what the writer emits gives back the record. */
  lemma VehicleDescriptorRoundTrip(d: VehicleDescriptor)
    ensures DecodeVehicleDescriptor(EncodeVehicleDescriptor(d)) == Ok(d)
  {
    var a0 := VehicleDescriptorStart();
    var a1 := a0.(id := d.id);
    var a2 := a1.(vehicleLabel := d.vehicleLabel);
    var a3 := a2.(licensePlate := d.licensePlate);
    var e1 := Emit(d.id, 10, WriteString);
    var e2 := Emit(d.vehicleLabel, 18, WriteString);
    var e3 := Emit(d.licensePlate, 26, WriteString);
    var r3: seq<Field> := [];
    var r2 := e3 + r3;
    var r1 := e2 + r2;
    VehicleDescriptorItemId(a0, d, r1);
    VehicleDescriptorItemVehicleLabel(a1, d, r2);
    VehicleDescriptorItemLicensePlate(a2, d, r3);
    assert a3 == d;
  }

  lemma VehicleDescriptorItemSizeId(d: VehicleDescriptor)
    ensures EncodedSize(Emit(d.id, 10, WriteString)) == OptSize(d.id, StringItemSize)
  {
    EmitSize(d.id, 10, WriteString, StringItemSize);
  }

  lemma VehicleDescriptorItemSizeVehicleLabel(d: VehicleDescriptor)
    ensures EncodedSize(Emit(d.vehicleLabel, 18, WriteString)) == OptSize(d.vehicleLabel, StringItemSize)
  {
    EmitSize(d.vehicleLabel, 18, WriteString, StringItemSize);
  }

  lemma VehicleDescriptorItemSizeLicensePlate(d: VehicleDescriptor)
    ensures EncodedSize(Emit(d.licensePlate, 26, WriteString)) == OptSize(d.licensePlate, StringItemSize)
  {
    EmitSize(d.licensePlate, 26, WriteString, StringItemSize);
  }

  /** `get_size` is the number of bytes `write_message` produces. */
  lemma VehicleDescriptorSizeMatchesEncoding(d: VehicleDescriptor)
    ensures VehicleDescriptorSize(d) == EncodedSize(EncodeVehicleDescriptor(d))
  {
    var e1 := Emit(d.id, 10, WriteString);
    var e2 := Emit(d.vehicleLabel, 18, WriteString);
    var e3 := Emit(d.licensePlate, 26, WriteString);
    var r3: seq<Field> := [];
    var r2 := e3 + r3;
    var r1 := e2 + r2;
    VehicleDescriptorItemSizeId(d);
    EncodedSizeAppend(e1, r1);
    VehicleDescriptorItemSizeVehicleLabel(d);
    EncodedSizeAppend(e2, r2);
    VehicleDescriptorItemSizeLicensePlate(d);
    EncodedSizeAppend(e3, r3);
  }

  lemma VehicleDescriptorItemWellFormedId(d: VehicleDescriptor)
    ensures AllWellFormed(Emit(d.id, 10, WriteString))
  {
  }

  lemma VehicleDescriptorItemWellFormedVehicleLabel(d: VehicleDescriptor)
    ensures AllWellFormed(Emit(d.vehicleLabel, 18, WriteString))
  {
  }

  lemma VehicleDescriptorItemWellFormedLicensePlate(d: VehicleDescriptor)
    ensures AllWellFormed(Emit(d.licensePlate, 26, WriteString))
  {
  }

  /** Every item the writer emits has a tag whose low three bits name its payload's wire type. */
  lemma VehicleDescriptorEncodingWellFormed(d: VehicleDescriptor)
    ensures AllWellFormed(EncodeVehicleDescriptor(d))
  {
    var e1 := Emit(d.id, 10, WriteString);
    var e2 := Emit(d.vehicleLabel, 18, WriteString);
    var e3 := Emit(d.licensePlate, 26, WriteString);
    var r3: seq<Field> := [];
    var r2 := e3 + r3;
    var r1 := e2 + r2;
    VehicleDescriptorItemWellFormedId(d);
    VehicleDescriptorItemWellFormedVehicleLabel(d);
    VehicleDescriptorItemWellFormedLicensePlate(d);
    AllWellFormedAppend(e3, r3);
    AllWellFormedAppend(e2, r2);
    AllWellFormedAppend(e1, r1);
  }

  // ---------------- TripDescriptor ----------------

  lemma TripDescriptorItemTripId(acc: TripDescriptor, t: TripDescriptor, rest: seq<Field>)
    requires acc.tripId == TripDescriptorStart().tripId
    ensures Fold(TripDescriptorStep, acc, Emit(t.tripId, 10, WriteString) + rest) == Fold(TripDescriptorStep, acc.(tripId := t.tripId), rest)
  {
    FoldEmit(TripDescriptorStep, acc, acc.(tripId := t.tripId), Emit(t.tripId, 10, WriteString), rest);
  }

  lemma TripDescriptorItemRouteId(acc: TripDescriptor, t: TripDescriptor, rest: seq<Field>)
    requires acc.routeId == TripDescriptorStart().routeId
    ensures Fold(TripDescriptorStep, acc, Emit(t.routeId, 42, WriteString) + rest) == Fold(TripDescriptorStep, acc.(routeId := t.routeId), rest)
  {
    FoldEmit(TripDescriptorStep, acc, acc.(routeId := t.routeId), Emit(t.routeId, 42, WriteString), rest);
  }

  lemma TripDescriptorItemDirectionId(acc: TripDescriptor, t: TripDescriptor, rest: seq<Field>)
    requires acc.directionId == TripDescriptorStart().directionId
    ensures Fold(TripDescriptorStep, acc, Emit(t.directionId, 48, WriteUint32) + rest) == Fold(TripDescriptorStep, acc.(directionId := t.directionId), rest)
  {
    FoldEmit(TripDescriptorStep, acc, acc.(directionId := t.directionId), Emit(t.directionId, 48, WriteUint32), rest);
  }

  lemma TripDescriptorItemStartTime(acc: TripDescriptor, t: TripDescriptor, rest: seq<Field>)
    requires acc.startTime == TripDescriptorStart().startTime
    ensures Fold(TripDescriptorStep, acc, Emit(t.startTime, 18, WriteString) + rest) == Fold(TripDescriptorStep, acc.(startTime := t.startTime), rest)
  {
    FoldEmit(TripDescriptorStep, acc, acc.(startTime := t.startTime), Emit(t.startTime, 18, WriteString), rest);
  }

  lemma TripDescriptorItemStartDate(acc: TripDescriptor, t: TripDescriptor, rest: seq<Field>)
    requires acc.startDate == TripDescriptorStart().startDate
    ensures Fold(TripDescriptorStep, acc, Emit(t.startDate, 26, WriteString) + rest) == Fold(TripDescriptorStep, acc.(startDate := t.startDate), rest)
  {
    FoldEmit(TripDescriptorStep, acc, acc.(startDate := t.startDate), Emit(t.startDate, 26, WriteString), rest);
  }

  lemma TripDescriptorItemScheduleRelationship(acc: TripDescriptor, t: TripDescriptor, rest: seq<Field>)
    requires acc.scheduleRelationship == TripDescriptorStart().scheduleRelationship
    ensures Fold(TripDescriptorStep, acc, Emit(t.scheduleRelationship, 32, WriteScheduleRelationship) + rest) == Fold(TripDescriptorStep, acc.(scheduleRelationship := t.scheduleRelationship), rest)
  {
    if t.scheduleRelationship.Some? { ScheduleRelationshipRoundTrips(t.scheduleRelationship.value); }
    FoldEmit(TripDescriptorStep, acc, acc.(scheduleRelationship := t.scheduleRelationship), Emit(t.scheduleRelationship, 32, WriteScheduleRelationship), rest);
  }

  /** Decoding what the writer emits gives back the record. */
  lemma TripDescriptorRoundTrip(t: TripDescriptor)
    ensures DecodeTripDescriptor(EncodeTripDescriptor(t)) == Ok(t)
  {
    var a0 := TripDescriptorStart();
    var a1 := a0.(tripId := t.tripId);
    var a2 := a1.(routeId := t.routeId);
    var a3 := a2.(directionId := t.directionId);
    var a4 := a3.(startTime := t.startTime);
    var a5 := a4.(startDate := t.startDate);
    var a6 := a5.(scheduleRelationship := t.scheduleRelationship);
    var e1 := Emit(t.tripId, 10, WriteString);
    var e2 := Emit(t.routeId, 42, WriteString);
    var e3 := Emit(t.directionId, 48, WriteUint32);
    var e4 := Emit(t.startTime, 18, WriteString);
    var e5 := Emit(t.startDate, 26, WriteString);
    var e6 := Emit(t.scheduleRelationship, 32, WriteScheduleRelationship);
    var r6: seq<Field> := [];
    var r5 := e6 + r6;
    var r4 := e5 + r5;
    var r3 := e4 + r4;
    var r2 := e3 + r3;
    var r1 := e2 + r2;
    TripDescriptorItemTripId(a0, t, r1);
    TripDescriptorItemRouteId(a1, t, r2);
    TripDescriptorItemDirectionId(a2, t, r3);
    TripDescriptorItemStartTime(a3, t, r4);
    TripDescriptorItemStartDate(a4, t, r5);
    TripDescriptorItemScheduleRelationship(a5, t, r6);
    assert a6 == t;
  }

  lemma TripDescriptorItemSizeTripId(t: TripDescriptor)
    ensures EncodedSize(Emit(t.tripId, 10, WriteString)) == OptSize(t.tripId, StringItemSize)
  {
    EmitSize(t.tripId, 10, WriteString, StringItemSize);
  }

  lemma TripDescriptorItemSizeRouteId(t: TripDescriptor)
    ensures EncodedSize(Emit(t.routeId, 42, WriteString)) == OptSize(t.routeId, StringItemSize)
  {
    EmitSize(t.routeId, 42, WriteString, StringItemSize);
  }

  lemma TripDescriptorItemSizeDirectionId(t: TripDescriptor)
    ensures EncodedSize(Emit(t.directionId, 48, WriteUint32)) == OptSize(t.directionId, (x: u32) => 1 + SizeOfVarint(x))
  {
    EmitSize(t.directionId, 48, WriteUint32, (x: u32) => 1 + SizeOfVarint(x));
  }

  lemma TripDescriptorItemSizeStartTime(t: TripDescriptor)
    ensures EncodedSize(Emit(t.startTime, 18, WriteString)) == OptSize(t.startTime, StringItemSize)
  {
    EmitSize(t.startTime, 18, WriteString, StringItemSize);
  }

  lemma TripDescriptorItemSizeStartDate(t: TripDescriptor)
    ensures EncodedSize(Emit(t.startDate, 26, WriteString)) == OptSize(t.startDate, StringItemSize)
  {
    EmitSize(t.startDate, 26, WriteString, StringItemSize);
  }

  lemma TripDescriptorItemSizeScheduleRelationship(t: TripDescriptor)
    ensures EncodedSize(Emit(t.scheduleRelationship, 32, WriteScheduleRelationship)) == OptSize(t.scheduleRelationship, (e: ScheduleRelationship) => 1 + SizeOfVarint(ScheduleRelationshipToI32(e)))
  {
    EmitSize(t.scheduleRelationship, 32, WriteScheduleRelationship, (e: ScheduleRelationship) => 1 + SizeOfVarint(ScheduleRelationshipToI32(e)));
  }

  /** `get_size` is the number of bytes `write_message` produces. */
  lemma TripDescriptorSizeMatchesEncoding(t: TripDescriptor)
    ensures TripDescriptorSize(t) == EncodedSize(EncodeTripDescriptor(t))
  {
    var e1 := Emit(t.tripId, 10, WriteString);
    var e2 := Emit(t.routeId, 42, WriteString);
    var e3 := Emit(t.directionId, 48, WriteUint32);
    var e4 := Emit(t.startTime, 18, WriteString);
    var e5 := Emit(t.startDate, 26, WriteString);
    var e6 := Emit(t.scheduleRelationship, 32, WriteScheduleRelationship);
    var r6: seq<Field> := [];
    var r5 := e6 + r6;
    var r4 := e5 + r5;
    var r3 := e4 + r4;
    var r2 := e3 + r3;
    var r1 := e2 + r2;
    TripDescriptorItemSizeTripId(t);
    EncodedSizeAppend(e1, r1);
    TripDescriptorItemSizeRouteId(t);
    EncodedSizeAppend(e2, r2);
    TripDescriptorItemSizeDirectionId(t);
    EncodedSizeAppend(e3, r3);
    TripDescriptorItemSizeStartTime(t);
    EncodedSizeAppend(e4, r4);
    TripDescriptorItemSizeStartDate(t);
    EncodedSizeAppend(e5, r5);
    TripDescriptorItemSizeScheduleRelationship(t);
    EncodedSizeAppend(e6, r6);
  }

  lemma TripDescriptorItemWellFormedTripId(t: TripDescriptor)
    ensures AllWellFormed(Emit(t.tripId, 10, WriteString))
  {
  }

  lemma TripDescriptorItemWellFormedRouteId(t: TripDescriptor)
    ensures AllWellFormed(Emit(t.routeId, 42, WriteString))
  {
  }

  lemma TripDescriptorItemWellFormedDirectionId(t: TripDescriptor)
    ensures AllWellFormed(Emit(t.directionId, 48, WriteUint32))
  {
  }

  lemma TripDescriptorItemWellFormedStartTime(t: TripDescriptor)
    ensures AllWellFormed(Emit(t.startTime, 18, WriteString))
  {
  }

  lemma TripDescriptorItemWellFormedStartDate(t: TripDescriptor)
    ensures AllWellFormed(Emit(t.startDate, 26, WriteString))
  {
  }

  lemma TripDescriptorItemWellFormedScheduleRelationship(t: TripDescriptor)
    ensures AllWellFormed(Emit(t.scheduleRelationship, 32, WriteScheduleRelationship))
  {
  }

  /** Every item the writer emits has a tag whose low three bits name its payload's wire type. */
  lemma TripDescriptorEncodingWellFormed(t: TripDescriptor)
    ensures AllWellFormed(EncodeTripDescriptor(t))
  {
    var e1 := Emit(t.tripId, 10, WriteString);
    var e2 := Emit(t.routeId, 42, WriteString);
    var e3 := Emit(t.directionId, 48, WriteUint32);
    var e4 := Emit(t.startTime, 18, WriteString);
    var e5 := Emit(t.startDate, 26, WriteString);
    var e6 := Emit(t.scheduleRelationship, 32, WriteScheduleRelationship);
    var r6: seq<Field> := [];
    var r5 := e6 + r6;
    var r4 := e5 + r5;
    var r3 := e4 + r4;
    var r2 := e3 + r3;
    var r1 := e2 + r2;
    TripDescriptorItemWellFormedTripId(t);
    TripDescriptorItemWellFormedRouteId(t);
    TripDescriptorItemWellFormedDirectionId(t);
    TripDescriptorItemWellFormedStartTime(t);
    TripDescriptorItemWellFormedStartDate(t);
    TripDescriptorItemWellFormedScheduleRelationship(t);
    AllWellFormedAppend(e6, r6);
    AllWellFormedAppend(e5, r5);
    AllWellFormedAppend(e4, r4);
    AllWellFormedAppend(e3, r3);
    AllWellFormedAppend(e2, r2);
    AllWellFormedAppend(e1, r1);
  }

  // ---------------- VehiclePosition ----------------

  lemma VehiclePositionItemTrip(acc: VehiclePosition, v: VehiclePosition, rest: seq<Field>)
    requires acc.trip == VehiclePositionStart().trip
    ensures Fold(VehiclePositionStep, acc, Emit(v.trip, 10, WriteTripDescriptor) + rest) == Fold(VehiclePositionStep, acc.(trip := v.trip), rest)
  {
    if v.trip.Some? { TripDescriptorRoundTrip(v.trip.value); }
    FoldEmit(VehiclePositionStep, acc, acc.(trip := v.trip), Emit(v.trip, 10, WriteTripDescriptor), rest);
  }

  lemma VehiclePositionItemVehicle(acc: VehiclePosition, v: VehiclePosition, rest: seq<Field>)
    requires acc.vehicle == VehiclePositionStart().vehicle
    ensures Fold(VehiclePositionStep, acc, Emit(v.vehicle, 66, WriteVehicleDescriptor) + rest) == Fold(VehiclePositionStep, acc.(vehicle := v.vehicle), rest)
  {
    if v.vehicle.Some? { VehicleDescriptorRoundTrip(v.vehicle.value); }
    FoldEmit(VehiclePositionStep, acc, acc.(vehicle := v.vehicle), Emit(v.vehicle, 66, WriteVehicleDescriptor), rest);
  }

  lemma VehiclePositionItemPosition(acc: VehiclePosition, v: VehiclePosition, rest: seq<Field>)
    requires acc.position == VehiclePositionStart().position
    ensures Fold(VehiclePositionStep, acc, Emit(v.position, 18, WritePosition) + rest) == Fold(VehiclePositionStep, acc.(position := v.position), rest)
  {
    if v.position.Some? { PositionRoundTrip(v.position.value); }
    FoldEmit(VehiclePositionStep, acc, acc.(position := v.position), Emit(v.position, 18, WritePosition), rest);
  }

  lemma VehiclePositionItemCurrentStopSequence(acc: VehiclePosition, v: VehiclePosition, rest: seq<Field>)
    requires acc.currentStopSequence == VehiclePositionStart().currentStopSequence
    ensures Fold(VehiclePositionStep, acc, Emit(v.currentStopSequence, 24, WriteUint32) + rest) == Fold(VehiclePositionStep, acc.(currentStopSequence := v.currentStopSequence), rest)
  {
    FoldEmit(VehiclePositionStep, acc, acc.(currentStopSequence := v.currentStopSequence), Emit(v.currentStopSequence, 24, WriteUint32), rest);
  }

  lemma VehiclePositionItemStopId(acc: VehiclePosition, v: VehiclePosition, rest: seq<Field>)
    requires acc.stopId == VehiclePositionStart().stopId
    ensures Fold(VehiclePositionStep, acc, Emit(v.stopId, 58, WriteString) + rest) == Fold(VehiclePositionStep, acc.(stopId := v.stopId), rest)
  {
    FoldEmit(VehiclePositionStep, acc, acc.(stopId := v.stopId), Emit(v.stopId, 58, WriteString), rest);
  }

  lemma VehiclePositionItemCurrentStatus(acc: VehiclePosition, v: VehiclePosition, rest: seq<Field>)
    requires acc.currentStatus == VehiclePositionStart().currentStatus
    ensures Fold(VehiclePositionStep, acc, EmitIf(v.currentStatus != IN_TRANSIT_TO, Field(32, WriteInt32(VehicleStopStatusToI32(v.currentStatus)))) + rest) == Fold(VehiclePositionStep, acc.(currentStatus := v.currentStatus), rest)
  {
    VehicleStopStatusRoundTrips(v.currentStatus);
    FoldEmit(VehiclePositionStep, acc, acc.(currentStatus := v.currentStatus), EmitIf(v.currentStatus != IN_TRANSIT_TO, Field(32, WriteInt32(VehicleStopStatusToI32(v.currentStatus)))), rest);
  }

  lemma VehiclePositionItemTimestamp(acc: VehiclePosition, v: VehiclePosition, rest: seq<Field>)
    requires acc.timestamp == VehiclePositionStart().timestamp
    ensures Fold(VehiclePositionStep, acc, Emit(v.timestamp, 40, WriteUint64) + rest) == Fold(VehiclePositionStep, acc.(timestamp := v.timestamp), rest)
  {
    FoldEmit(VehiclePositionStep, acc, acc.(timestamp := v.timestamp), Emit(v.timestamp, 40, WriteUint64), rest);
  }

  lemma VehiclePositionItemCongestionLevel(acc: VehiclePosition, v: VehiclePosition, rest: seq<Field>)
    requires acc.congestionLevel == VehiclePositionStart().congestionLevel
    ensures Fold(VehiclePositionStep, acc, Emit(v.congestionLevel, 48, WriteCongestionLevel) + rest) == Fold(VehiclePositionStep, acc.(congestionLevel := v.congestionLevel), rest)
  {
    if v.congestionLevel.Some? { CongestionLevelRoundTrips(v.congestionLevel.value); }
    FoldEmit(VehiclePositionStep, acc, acc.(congestionLevel := v.congestionLevel), Emit(v.congestionLevel, 48, WriteCongestionLevel), rest);
  }

  lemma VehiclePositionItemOccupancyStatus(acc: VehiclePosition, v: VehiclePosition, rest: seq<Field>)
    requires acc.occupancyStatus == VehiclePositionStart().occupancyStatus
    ensures Fold(VehiclePositionStep, acc, Emit(v.occupancyStatus, 72, WriteOccupancyStatus) + rest) == Fold(VehiclePositionStep, acc.(occupancyStatus := v.occupancyStatus), rest)
  {
    if v.occupancyStatus.Some? { OccupancyStatusRoundTrips(v.occupancyStatus.value); }
    FoldEmit(VehiclePositionStep, acc, acc.(occupancyStatus := v.occupancyStatus), Emit(v.occupancyStatus, 72, WriteOccupancyStatus), rest);
  }

  /** Decoding what the writer emits gives back the record. */
  lemma VehiclePositionRoundTrip(v: VehiclePosition)
    ensures DecodeVehiclePosition(EncodeVehiclePosition(v)) == Ok(v)
  {
    var a0 := VehiclePositionStart();
    var a1 := a0.(trip := v.trip);
    var a2 := a1.(vehicle := v.vehicle);
    var a3 := a2.(position := v.position);
    var a4 := a3.(currentStopSequence := v.currentStopSequence);
    var a5 := a4.(stopId := v.stopId);
    var a6 := a5.(currentStatus := v.currentStatus);
    var a7 := a6.(timestamp := v.timestamp);
    var a8 := a7.(congestionLevel := v.congestionLevel);
    var a9 := a8.(occupancyStatus := v.occupancyStatus);
    var e1 := Emit(v.trip, 10, WriteTripDescriptor);
    var e2 := Emit(v.vehicle, 66, WriteVehicleDescriptor);
    var e3 := Emit(v.position, 18, WritePosition);
    var e4 := Emit(v.currentStopSequence, 24, WriteUint32);
    var e5 := Emit(v.stopId, 58, WriteString);
    var e6 := EmitIf(v.currentStatus != IN_TRANSIT_TO, Field(32, WriteInt32(VehicleStopStatusToI32(v.currentStatus))));
    var e7 := Emit(v.timestamp, 40, WriteUint64);
    var e8 := Emit(v.congestionLevel, 48, WriteCongestionLevel);
    var e9 := Emit(v.occupancyStatus, 72, WriteOccupancyStatus);
    var r9: seq<Field> := [];
    var r8 := e9 + r9;
    var r7 := e8 + r8;
    var r6 := e7 + r7;
    var r5 := e6 + r6;
    var r4 := e5 + r5;
    var r3 := e4 + r4;
    var r2 := e3 + r3;
    var r1 := e2 + r2;
    VehiclePositionItemTrip(a0, v, r1);
    VehiclePositionItemVehicle(a1, v, r2);
    VehiclePositionItemPosition(a2, v, r3);
    VehiclePositionItemCurrentStopSequence(a3, v, r4);
    VehiclePositionItemStopId(a4, v, r5);
    VehiclePositionItemCurrentStatus(a5, v, r6);
    VehiclePositionItemTimestamp(a6, v, r7);
    VehiclePositionItemCongestionLevel(a7, v, r8);
    VehiclePositionItemOccupancyStatus(a8, v, r9);
    assert a9 == v;
  }

  lemma VehiclePositionItemSizeTrip(v: VehiclePosition)
    ensures EncodedSize(Emit(v.trip, 10, WriteTripDescriptor)) == OptSize(v.trip, (t: TripDescriptor) => 1 + SizeOfLen(TripDescriptorSize(t)))
  {
    if v.trip.Some? { TripDescriptorSizeMatchesEncoding(v.trip.value); }
    EmitSize(v.trip, 10, WriteTripDescriptor, (t: TripDescriptor) => 1 + SizeOfLen(TripDescriptorSize(t)));
  }

  lemma VehiclePositionItemSizeVehicle(v: VehiclePosition)
    ensures EncodedSize(Emit(v.vehicle, 66, WriteVehicleDescriptor)) == OptSize(v.vehicle, (d: VehicleDescriptor) => 1 + SizeOfLen(VehicleDescriptorSize(d)))
  {
    if v.vehicle.Some? { VehicleDescriptorSizeMatchesEncoding(v.vehicle.value); }
    EmitSize(v.vehicle, 66, WriteVehicleDescriptor, (d: VehicleDescriptor) => 1 + SizeOfLen(VehicleDescriptorSize(d)));
  }

  lemma VehiclePositionItemSizePosition(v: VehiclePosition)
    ensures EncodedSize(Emit(v.position, 18, WritePosition)) == OptSize(v.position, (p: Position) => 1 + SizeOfLen(PositionSize(p)))
  {
    if v.position.Some? { PositionSizeMatchesEncoding(v.position.value); }
    EmitSize(v.position, 18, WritePosition, (p: Position) => 1 + SizeOfLen(PositionSize(p)));
  }

  lemma VehiclePositionItemSizeCurrentStopSequence(v: VehiclePosition)
    ensures EncodedSize(Emit(v.currentStopSequence, 24, WriteUint32)) == OptSize(v.currentStopSequence, (x: u32) => 1 + SizeOfVarint(x))
  {
    EmitSize(v.currentStopSequence, 24, WriteUint32, (x: u32) => 1 + SizeOfVarint(x));
  }

  lemma VehiclePositionItemSizeStopId(v: VehiclePosition)
    ensures EncodedSize(Emit(v.stopId, 58, WriteString)) == OptSize(v.stopId, StringItemSize)
  {
    EmitSize(v.stopId, 58, WriteString, StringItemSize);
  }

  lemma VehiclePositionItemSizeCurrentStatus(v: VehiclePosition)
    ensures EncodedSize(EmitIf(v.currentStatus != IN_TRANSIT_TO, Field(32, WriteInt32(VehicleStopStatusToI32(v.currentStatus))))) == (if v.currentStatus == IN_TRANSIT_TO then 0 else 1 + SizeOfVarint(VehicleStopStatusToI32(v.currentStatus)))
  {
    EmitIfSize(v.currentStatus != IN_TRANSIT_TO, Field(32, WriteInt32(VehicleStopStatusToI32(v.currentStatus))));
  }

  lemma VehiclePositionItemSizeTimestamp(v: VehiclePosition)
    ensures EncodedSize(Emit(v.timestamp, 40, WriteUint64)) == OptSize(v.timestamp, (x: u64) => 1 + SizeOfVarint(x))
  {
    EmitSize(v.timestamp, 40, WriteUint64, (x: u64) => 1 + SizeOfVarint(x));
  }

  lemma VehiclePositionItemSizeCongestionLevel(v: VehiclePosition)
    ensures EncodedSize(Emit(v.congestionLevel, 48, WriteCongestionLevel)) == OptSize(v.congestionLevel, (e: CongestionLevel) => 1 + SizeOfVarint(CongestionLevelToI32(e)))
  {
    EmitSize(v.congestionLevel, 48, WriteCongestionLevel, (e: CongestionLevel) => 1 + SizeOfVarint(CongestionLevelToI32(e)));
  }

  lemma VehiclePositionItemSizeOccupancyStatus(v: VehiclePosition)
    ensures EncodedSize(Emit(v.occupancyStatus, 72, WriteOccupancyStatus)) == OptSize(v.occupancyStatus, (e: OccupancyStatus) => 1 + SizeOfVarint(OccupancyStatusToI32(e)))
  {
    EmitSize(v.occupancyStatus, 72, WriteOccupancyStatus, (e: OccupancyStatus) => 1 + SizeOfVarint(OccupancyStatusToI32(e)));
  }

  /** `get_size` is the number of bytes `write_message` produces. */
  lemma VehiclePositionSizeMatchesEncoding(v: VehiclePosition)
    ensures VehiclePositionSize(v) == EncodedSize(EncodeVehiclePosition(v))
  {
    var e1 := Emit(v.trip, 10, WriteTripDescriptor);
    var e2 := Emit(v.vehicle, 66, WriteVehicleDescriptor);
    var e3 := Emit(v.position, 18, WritePosition);
    var e4 := Emit(v.currentStopSequence, 24, WriteUint32);
    var e5 := Emit(v.stopId, 58, WriteString);
    var e6 := EmitIf(v.currentStatus != IN_TRANSIT_TO, Field(32, WriteInt32(VehicleStopStatusToI32(v.currentStatus))));
    var e7 := Emit(v.timestamp, 40, WriteUint64);
    var e8 := Emit(v.congestionLevel, 48, WriteCongestionLevel);
    var e9 := Emit(v.occupancyStatus, 72, WriteOccupancyStatus);
    var r9: seq<Field> := [];
    var r8 := e9 + r9;
    var r7 := e8 + r8;
    var r6 := e7 + r7;
    var r5 := e6 + r6;
    var r4 := e5 + r5;
    var r3 := e4 + r4;
    var r2 := e3 + r3;
    var r1 := e2 + r2;
    VehiclePositionItemSizeTrip(v);
    EncodedSizeAppend(e1, r1);
    VehiclePositionItemSizeVehicle(v);
    EncodedSizeAppend(e2, r2);
    VehiclePositionItemSizePosition(v);
    EncodedSizeAppend(e3, r3);
    VehiclePositionItemSizeCurrentStopSequence(v);
    EncodedSizeAppend(e4, r4);
    VehiclePositionItemSizeStopId(v);
    EncodedSizeAppend(e5, r5);
    VehiclePositionItemSizeCurrentStatus(v);
    EncodedSizeAppend(e6, r6);
    VehiclePositionItemSizeTimestamp(v);
    EncodedSizeAppend(e7, r7);
    VehiclePositionItemSizeCongestionLevel(v);
    EncodedSizeAppend(e8, r8);
    VehiclePositionItemSizeOccupancyStatus(v);
    EncodedSizeAppend(e9, r9);
  }

  lemma VehiclePositionItemWellFormedTrip(v: VehiclePosition)
    ensures AllWellFormed(Emit(v.trip, 10, WriteTripDescriptor))
  {
  }

  lemma VehiclePositionItemWellFormedVehicle(v: VehiclePosition)
    ensures AllWellFormed(Emit(v.vehicle, 66, WriteVehicleDescriptor))
  {
  }

  lemma VehiclePositionItemWellFormedPosition(v: VehiclePosition)
    ensures AllWellFormed(Emit(v.position, 18, WritePosition))
  {
  }

  lemma VehiclePositionItemWellFormedCurrentStopSequence(v: VehiclePosition)
    ensures AllWellFormed(Emit(v.currentStopSequence, 24, WriteUint32))
  {
  }

  lemma VehiclePositionItemWellFormedStopId(v: VehiclePosition)
    ensures AllWellFormed(Emit(v.stopId, 58, WriteString))
  {
  }

  lemma VehiclePositionItemWellFormedCurrentStatus(v: VehiclePosition)
    ensures AllWellFormed(EmitIf(v.currentStatus != IN_TRANSIT_TO, Field(32, WriteInt32(VehicleStopStatusToI32(v.currentStatus)))))
  {
  }

  lemma VehiclePositionItemWellFormedTimestamp(v: VehiclePosition)
    ensures AllWellFormed(Emit(v.timestamp, 40, WriteUint64))
  {
  }

  lemma VehiclePositionItemWellFormedCongestionLevel(v: VehiclePosition)
    ensures AllWellFormed(Emit(v.congestionLevel, 48, WriteCongestionLevel))
  {
  }

  lemma VehiclePositionItemWellFormedOccupancyStatus(v: VehiclePosition)
    ensures AllWellFormed(Emit(v.occupancyStatus, 72, WriteOccupancyStatus))
  {
  }

  /** Every item the writer emits has a tag whose low three bits name its payload's wire type. */
  lemma VehiclePositionEncodingWellFormed(v: VehiclePosition)
    ensures AllWellFormed(EncodeVehiclePosition(v))
  {
    var e1 := Emit(v.trip, 10, WriteTripDescriptor);
    var e2 := Emit(v.vehicle, 66, WriteVehicleDescriptor);
    var e3 := Emit(v.position, 18, WritePosition);
    var e4 := Emit(v.currentStopSequence, 24, WriteUint32);
    var e5 := Emit(v.stopId, 58, WriteString);
    var e6 := EmitIf(v.currentStatus != IN_TRANSIT_TO, Field(32, WriteInt32(VehicleStopStatusToI32(v.currentStatus))));
    var e7 := Emit(v.timestamp, 40, WriteUint64);
    var e8 := Emit(v.congestionLevel, 48, WriteCongestionLevel);
    var e9 := Emit(v.occupancyStatus, 72, WriteOccupancyStatus);
    var r9: seq<Field> := [];
    var r8 := e9 + r9;
    var r7 := e8 + r8;
    var r6 := e7 + r7;
    var r5 := e6 + r6;
    var r4 := e5 + r5;
    var r3 := e4 + r4;
    var r2 := e3 + r3;
    var r1 := e2 + r2;
    VehiclePositionItemWellFormedTrip(v);
    VehiclePositionItemWellFormedVehicle(v);
    VehiclePositionItemWellFormedPosition(v);
    VehiclePositionItemWellFormedCurrentStopSequence(v);
    VehiclePositionItemWellFormedStopId(v);
    VehiclePositionItemWellFormedCurrentStatus(v);
    VehiclePositionItemWellFormedTimestamp(v);
    VehiclePositionItemWellFormedCongestionLevel(v);
    VehiclePositionItemWellFormedOccupancyStatus(v);
    AllWellFormedAppend(e9, r9);
    AllWellFormedAppend(e8, r8);
    AllWellFormedAppend(e7, r7);
    AllWellFormedAppend(e6, r6);
    AllWellFormedAppend(e5, r5);
    AllWellFormedAppend(e4, r4);
    AllWellFormedAppend(e3, r3);
    AllWellFormedAppend(e2, r2);
    AllWellFormedAppend(e1, r1);
  }

  // ---------------- Alert ----------------

  lemma AlertItemActivePeriod(acc: Alert, a: Alert, rest: seq<Field>)
    requires acc.activePeriod == AlertStart().activePeriod
    ensures Fold(AlertStep, acc, Repeated(a.activePeriod, 10, WriteNested) + rest) == Fold(AlertStep, acc.(activePeriod := a.activePeriod), rest)
  {
    forall m: Alert, x | true
      ensures AlertStep(m, Field(10, WriteNested(x))) == Ok(AppendActivePeriod(m, x))
    {
      AppendActivePeriodStep(m, x);
    }
    FoldRepeated(AlertStep, acc, a.activePeriod, 10, WriteNested, AppendActivePeriod, rest);
    AppendActivePeriodAll(acc, a.activePeriod);
    assert acc.activePeriod + a.activePeriod == a.activePeriod;
  }

  lemma AlertItemInformedEntity(acc: Alert, a: Alert, rest: seq<Field>)
    requires acc.informedEntity == AlertStart().informedEntity
    ensures Fold(AlertStep, acc, Repeated(a.informedEntity, 42, WriteNested) + rest) == Fold(AlertStep, acc.(informedEntity := a.informedEntity), rest)
  {
    forall m: Alert, x | true
      ensures AlertStep(m, Field(42, WriteNested(x))) == Ok(AppendInformedEntity(m, x))
    {
      AppendInformedEntityStep(m, x);
    }
    FoldRepeated(AlertStep, acc, a.informedEntity, 42, WriteNested, AppendInformedEntity, rest);
    AppendInformedEntityAll(acc, a.informedEntity);
    assert acc.informedEntity + a.informedEntity == a.informedEntity;
  }

  lemma AlertItemCause(acc: Alert, a: Alert, rest: seq<Field>)
    requires acc.cause == AlertStart().cause
    ensures Fold(AlertStep, acc, EmitIf(a.cause != UNKNOWN_CAUSE, Field(48, WriteInt32(CauseToI32(a.cause)))) + rest) == Fold(AlertStep, acc.(cause := a.cause), rest)
  {
    CauseRoundTrips(a.cause);
    FoldEmit(AlertStep, acc, acc.(cause := a.cause), EmitIf(a.cause != UNKNOWN_CAUSE, Field(48, WriteInt32(CauseToI32(a.cause)))), rest);
  }

  lemma AlertItemEffect(acc: Alert, a: Alert, rest: seq<Field>)
    requires acc.effect == AlertStart().effect
    ensures Fold(AlertStep, acc, EmitIf(a.effect != UNKNOWN_EFFECT, Field(56, WriteInt32(EffectToI32(a.effect)))) + rest) == Fold(AlertStep, acc.(effect := a.effect), rest)
  {
    EffectRoundTrips(a.effect);
    FoldEmit(AlertStep, acc, acc.(effect := a.effect), EmitIf(a.effect != UNKNOWN_EFFECT, Field(56, WriteInt32(EffectToI32(a.effect)))), rest);
  }

  lemma AlertItemUrl(acc: Alert, a: Alert, rest: seq<Field>)
    requires acc.url == AlertStart().url
    ensures Fold(AlertStep, acc, Emit(a.url, 66, WriteNested) + rest) == Fold(AlertStep, acc.(url := a.url), rest)
  {
    FoldEmit(AlertStep, acc, acc.(url := a.url), Emit(a.url, 66, WriteNested), rest);
  }

  lemma AlertItemHeaderText(acc: Alert, a: Alert, rest: seq<Field>)
    requires acc.headerText == AlertStart().headerText
    ensures Fold(AlertStep, acc, Emit(a.headerText, 82, WriteNested) + rest) == Fold(AlertStep, acc.(headerText := a.headerText), rest)
  {
    FoldEmit(AlertStep, acc, acc.(headerText := a.headerText), Emit(a.headerText, 82, WriteNested), rest);
  }

  lemma AlertItemDescriptionText(acc: Alert, a: Alert, rest: seq<Field>)
    requires acc.descriptionText == AlertStart().descriptionText
    ensures Fold(AlertStep, acc, Emit(a.descriptionText, 90, WriteNested) + rest) == Fold(AlertStep, acc.(descriptionText := a.descriptionText), rest)
  {
    FoldEmit(AlertStep, acc, acc.(descriptionText := a.descriptionText), Emit(a.descriptionText, 90, WriteNested), rest);
  }

  /** Decoding what the writer emits gives back the record. */
  lemma AlertRoundTrip(a: Alert)
    ensures DecodeAlert(EncodeAlert(a)) == Ok(a)
  {
    var a0 := AlertStart();
    var a1 := a0.(activePeriod := a.activePeriod);
    var a2 := a1.(informedEntity := a.informedEntity);
    var a3 := a2.(cause := a.cause);
    var a4 := a3.(effect := a.effect);
    var a5 := a4.(url := a.url);
    var a6 := a5.(headerText := a.headerText);
    var a7 := a6.(descriptionText := a.descriptionText);
    var e1 := Repeated(a.activePeriod, 10, WriteNested);
    var e2 := Repeated(a.informedEntity, 42, WriteNested);
    var e3 := EmitIf(a.cause != UNKNOWN_CAUSE, Field(48, WriteInt32(CauseToI32(a.cause))));
    var e4 := EmitIf(a.effect != UNKNOWN_EFFECT, Field(56, WriteInt32(EffectToI32(a.effect))));
    var e5 := Emit(a.url, 66, WriteNested);
    var e6 := Emit(a.headerText, 82, WriteNested);
    var e7 := Emit(a.descriptionText, 90, WriteNested);
    var r7: seq<Field> := [];
    var r6 := e7 + r7;
    var r5 := e6 + r6;
    var r4 := e5 + r5;
    var r3 := e4 + r4;
    var r2 := e3 + r3;
    var r1 := e2 + r2;
    AlertItemActivePeriod(a0, a, r1);
    AlertItemInformedEntity(a1, a, r2);
    AlertItemCause(a2, a, r3);
    AlertItemEffect(a3, a, r4);
    AlertItemUrl(a4, a, r5);
    AlertItemHeaderText(a5, a, r6);
    AlertItemDescriptionText(a6, a, r7);
    assert a7 == a;
  }

  lemma AlertItemSizeActivePeriod(a: Alert)
    ensures EncodedSize(Repeated(a.activePeriod, 10, WriteNested)) == SumSizes(a.activePeriod, RawItemSize)
  {
    RepeatedSize(a.activePeriod, 10, WriteNested, RawItemSize);
  }

  lemma AlertItemSizeInformedEntity(a: Alert)
    ensures EncodedSize(Repeated(a.informedEntity, 42, WriteNested)) == SumSizes(a.informedEntity, RawItemSize)
  {
    RepeatedSize(a.informedEntity, 42, WriteNested, RawItemSize);
  }

  lemma AlertItemSizeCause(a: Alert)
    ensures EncodedSize(EmitIf(a.cause != UNKNOWN_CAUSE, Field(48, WriteInt32(CauseToI32(a.cause))))) == (if a.cause == UNKNOWN_CAUSE then 0 else 1 + SizeOfVarint(CauseToI32(a.cause)))
  {
    EmitIfSize(a.cause != UNKNOWN_CAUSE, Field(48, WriteInt32(CauseToI32(a.cause))));
  }

  lemma AlertItemSizeEffect(a: Alert)
    ensures EncodedSize(EmitIf(a.effect != UNKNOWN_EFFECT, Field(56, WriteInt32(EffectToI32(a.effect))))) == (if a.effect == UNKNOWN_EFFECT then 0 else 1 + SizeOfVarint(EffectToI32(a.effect)))
  {
    EmitIfSize(a.effect != UNKNOWN_EFFECT, Field(56, WriteInt32(EffectToI32(a.effect))));
  }

  lemma AlertItemSizeUrl(a: Alert)
    ensures EncodedSize(Emit(a.url, 66, WriteNested)) == OptSize(a.url, RawItemSize)
  {
    EmitSize(a.url, 66, WriteNested, RawItemSize);
  }

  lemma AlertItemSizeHeaderText(a: Alert)
    ensures EncodedSize(Emit(a.headerText, 82, WriteNested)) == OptSize(a.headerText, RawItemSize)
  {
    EmitSize(a.headerText, 82, WriteNested, RawItemSize);
  }

  lemma AlertItemSizeDescriptionText(a: Alert)
    ensures EncodedSize(Emit(a.descriptionText, 90, WriteNested)) == OptSize(a.descriptionText, RawItemSize)
  {
    EmitSize(a.descriptionText, 90, WriteNested, RawItemSize);
  }

  /** `get_size` is the number of bytes `write_message` produces. */
  lemma AlertSizeMatchesEncoding(a: Alert)
    ensures AlertSize(a) == EncodedSize(EncodeAlert(a))
  {
    var e1 := Repeated(a.activePeriod, 10, WriteNested);
    var e2 := Repeated(a.informedEntity, 42, WriteNested);
    var e3 := EmitIf(a.cause != UNKNOWN_CAUSE, Field(48, WriteInt32(CauseToI32(a.cause))));
    var e4 := EmitIf(a.effect != UNKNOWN_EFFECT, Field(56, WriteInt32(EffectToI32(a.effect))));
    var e5 := Emit(a.url, 66, WriteNested);
    var e6 := Emit(a.headerText, 82, WriteNested);
    var e7 := Emit(a.descriptionText, 90, WriteNested);
    var r7: seq<Field> := [];
    var r6 := e7 + r7;
    var r5 := e6 + r6;
    var r4 := e5 + r5;
    var r3 := e4 + r4;
    var r2 := e3 + r3;
    var r1 := e2 + r2;
    AlertItemSizeActivePeriod(a);
    EncodedSizeAppend(e1, r1);
    AlertItemSizeInformedEntity(a);
    EncodedSizeAppend(e2, r2);
    AlertItemSizeCause(a);
    EncodedSizeAppend(e3, r3);
    AlertItemSizeEffect(a);
    EncodedSizeAppend(e4, r4);
    AlertItemSizeUrl(a);
    EncodedSizeAppend(e5, r5);
    AlertItemSizeHeaderText(a);
    EncodedSizeAppend(e6, r6);
    AlertItemSizeDescriptionText(a);
    EncodedSizeAppend(e7, r7);
  }

  lemma AlertItemWellFormedActivePeriod(a: Alert)
    ensures AllWellFormed(Repeated(a.activePeriod, 10, WriteNested))
  {
    RepeatedWellFormed(a.activePeriod, 10, WriteNested);
  }

  lemma AlertItemWellFormedInformedEntity(a: Alert)
    ensures AllWellFormed(Repeated(a.informedEntity, 42, WriteNested))
  {
    RepeatedWellFormed(a.informedEntity, 42, WriteNested);
  }

  lemma AlertItemWellFormedCause(a: Alert)
    ensures AllWellFormed(EmitIf(a.cause != UNKNOWN_CAUSE, Field(48, WriteInt32(CauseToI32(a.cause)))))
  {
  }

  lemma AlertItemWellFormedEffect(a: Alert)
    ensures AllWellFormed(EmitIf(a.effect != UNKNOWN_EFFECT, Field(56, WriteInt32(EffectToI32(a.effect)))))
  {
  }

  lemma AlertItemWellFormedUrl(a: Alert)
    ensures AllWellFormed(Emit(a.url, 66, WriteNested))
  {
  }

  lemma AlertItemWellFormedHeaderText(a: Alert)
    ensures AllWellFormed(Emit(a.headerText, 82, WriteNested))
  {
  }

  lemma AlertItemWellFormedDescriptionText(a: Alert)
    ensures AllWellFormed(Emit(a.descriptionText, 90, WriteNested))
  {
  }

  /** Every item the writer emits has a tag whose low three bits name its payload's wire type. */
  lemma AlertEncodingWellFormed(a: Alert)
    ensures AllWellFormed(EncodeAlert(a))
  {
    var e1 := Repeated(a.activePeriod, 10, WriteNested);
    var e2 := Repeated(a.informedEntity, 42, WriteNested);
    var e3 := EmitIf(a.cause != UNKNOWN_CAUSE, Field(48, WriteInt32(CauseToI32(a.cause))));
    var e4 := EmitIf(a.effect != UNKNOWN_EFFECT, Field(56, WriteInt32(EffectToI32(a.effect))));
    var e5 := Emit(a.url, 66, WriteNested);
    var e6 := Emit(a.headerText, 82, WriteNested);
    var e7 := Emit(a.descriptionText, 90, WriteNested);
    var r7: seq<Field> := [];
    var r6 := e7 + r7;
    var r5 := e6 + r6;
    var r4 := e5 + r5;
    var r3 := e4 + r4;
    var r2 := e3 + r3;
    var r1 := e2 + r2;
    AlertItemWellFormedActivePeriod(a);
    AlertItemWellFormedInformedEntity(a);
    AlertItemWellFormedCause(a);
    AlertItemWellFormedEffect(a);
    AlertItemWellFormedUrl(a);
    AlertItemWellFormedHeaderText(a);
    AlertItemWellFormedDescriptionText(a);
    AllWellFormedAppend(e7, r7);
    AllWellFormedAppend(e6, r6);
    AllWellFormedAppend(e5, r5);
    AllWellFormedAppend(e4, r4);
    AllWellFormedAppend(e3, r3);
    AllWellFormedAppend(e2, r2);
    AllWellFormedAppend(e1, r1);
  }

  // ---------------- FeedEntity ----------------

  lemma FeedEntityItemId(acc: FeedEntity, e: FeedEntity, rest: seq<Field>)
    ensures Fold(FeedEntityStep, acc, [Field(10, WriteString(e.id))] + rest) == Fold(FeedEntityStep, acc.(id := e.id), rest)
  {
    FoldEmit(FeedEntityStep, acc, acc.(id := e.id), [Field(10, WriteString(e.id))], rest);
  }

  lemma FeedEntityItemIsDeleted(acc: FeedEntity, e: FeedEntity, rest: seq<Field>)
    requires acc.isDeleted == FeedEntityStart().isDeleted
    ensures Fold(FeedEntityStep, acc, EmitIf(e.isDeleted != false, Field(16, WriteBool(e.isDeleted))) + rest) == Fold(FeedEntityStep, acc.(isDeleted := e.isDeleted), rest)
  {
    FoldEmit(FeedEntityStep, acc, acc.(isDeleted := e.isDeleted), EmitIf(e.isDeleted != false, Field(16, WriteBool(e.isDeleted))), rest);
  }

  lemma FeedEntityItemTripUpdate(acc: FeedEntity, e: FeedEntity, rest: seq<Field>)
    requires acc.tripUpdate == FeedEntityStart().tripUpdate
    ensures Fold(FeedEntityStep, acc, Emit(e.tripUpdate, 26, WriteNested) + rest) == Fold(FeedEntityStep, acc.(tripUpdate := e.tripUpdate), rest)
  {
    FoldEmit(FeedEntityStep, acc, acc.(tripUpdate := e.tripUpdate), Emit(e.tripUpdate, 26, WriteNested), rest);
  }

  lemma FeedEntityItemVehicle(acc: FeedEntity, e: FeedEntity, rest: seq<Field>)
    requires acc.vehicle == FeedEntityStart().vehicle
    ensures Fold(FeedEntityStep, acc, Emit(e.vehicle, 34, WriteVehiclePosition) + rest) == Fold(FeedEntityStep, acc.(vehicle := e.vehicle), rest)
  {
    if e.vehicle.Some? { VehiclePositionRoundTrip(e.vehicle.value); }
    FoldEmit(FeedEntityStep, acc, acc.(vehicle := e.vehicle), Emit(e.vehicle, 34, WriteVehiclePosition), rest);
  }

  lemma FeedEntityItemAlert(acc: FeedEntity, e: FeedEntity, rest: seq<Field>)
    requires acc.alert == FeedEntityStart().alert
    ensures Fold(FeedEntityStep, acc, Emit(e.alert, 42, WriteAlert) + rest) == Fold(FeedEntityStep, acc.(alert := e.alert), rest)
  {
    if e.alert.Some? { AlertRoundTrip(e.alert.value); }
    FoldEmit(FeedEntityStep, acc, acc.(alert := e.alert), Emit(e.alert, 42, WriteAlert), rest);
  }

  /** Decoding what the writer emits gives back the record. */
  lemma FeedEntityRoundTrip(e: FeedEntity)
    ensures DecodeFeedEntity(EncodeFeedEntity(e)) == Ok(e)
  {
    var a0 := FeedEntityStart();
    var a1 := a0.(id := e.id);
    var a2 := a1.(isDeleted := e.isDeleted);
    var a3 := a2.(tripUpdate := e.tripUpdate);
    var a4 := a3.(vehicle := e.vehicle);
    var a5 := a4.(alert := e.alert);
    var e1 := [Field(10, WriteString(e.id))];
    var e2 := EmitIf(e.isDeleted != false, Field(16, WriteBool(e.isDeleted)));
    var e3 := Emit(e.tripUpdate, 26, WriteNested);
    var e4 := Emit(e.vehicle, 34, WriteVehiclePosition);
    var e5 := Emit(e.alert, 42, WriteAlert);
    var r5: seq<Field> := [];
    var r4 := e5 + r5;
    var r3 := e4 + r4;
    var r2 := e3 + r3;
    var r1 := e2 + r2;
    FeedEntityItemId(a0, e, r1);
    FeedEntityItemIsDeleted(a1, e, r2);
    FeedEntityItemTripUpdate(a2, e, r3);
    FeedEntityItemVehicle(a3, e, r4);
    FeedEntityItemAlert(a4, e, r5);
    assert a5 == e;
  }

  lemma FeedEntityItemSizeId(e: FeedEntity)
    ensures EncodedSize([Field(10, WriteString(e.id))]) == StringItemSize(e.id)
  {
    EncodedSizeSingle(Field(10, WriteString(e.id)));
  }

  lemma FeedEntityItemSizeIsDeleted(e: FeedEntity)
    ensures EncodedSize(EmitIf(e.isDeleted != false, Field(16, WriteBool(e.isDeleted)))) == (if e.isDeleted == false then 0 else 1 + SizeOfVarint(1))
  {
    EmitIfSize(e.isDeleted != false, Field(16, WriteBool(e.isDeleted)));
  }

  lemma FeedEntityItemSizeTripUpdate(e: FeedEntity)
    ensures EncodedSize(Emit(e.tripUpdate, 26, WriteNested)) == OptSize(e.tripUpdate, RawItemSize)
  {
    EmitSize(e.tripUpdate, 26, WriteNested, RawItemSize);
  }

  lemma FeedEntityItemSizeVehicle(e: FeedEntity)
    ensures EncodedSize(Emit(e.vehicle, 34, WriteVehiclePosition)) == OptSize(e.vehicle, (v: VehiclePosition) => 1 + SizeOfLen(VehiclePositionSize(v)))
  {
    if e.vehicle.Some? { VehiclePositionSizeMatchesEncoding(e.vehicle.value); }
    EmitSize(e.vehicle, 34, WriteVehiclePosition, (v: VehiclePosition) => 1 + SizeOfLen(VehiclePositionSize(v)));
  }

  lemma FeedEntityItemSizeAlert(e: FeedEntity)
    ensures EncodedSize(Emit(e.alert, 42, WriteAlert)) == OptSize(e.alert, (a: Alert) => 1 + SizeOfLen(AlertSize(a)))
  {
    if e.alert.Some? { AlertSizeMatchesEncoding(e.alert.value); }
    EmitSize(e.alert, 42, WriteAlert, (a: Alert) => 1 + SizeOfLen(AlertSize(a)));
  }

  /** `get_size` is the number of bytes `write_message` produces. */
  lemma FeedEntitySizeMatchesEncoding(e: FeedEntity)
    ensures FeedEntitySize(e) == EncodedSize(EncodeFeedEntity(e))
  {
    var e1 := [Field(10, WriteString(e.id))];
    var e2 := EmitIf(e.isDeleted != false, Field(16, WriteBool(e.isDeleted)));
    var e3 := Emit(e.tripUpdate, 26, WriteNested);
    var e4 := Emit(e.vehicle, 34, WriteVehiclePosition);
    var e5 := Emit(e.alert, 42, WriteAlert);
    var r5: seq<Field> := [];
    var r4 := e5 + r5;
    var r3 := e4 + r4;
    var r2 := e3 + r3;
    var r1 := e2 + r2;
    FeedEntityItemSizeId(e);
    EncodedSizeAppend(e1, r1);
    FeedEntityItemSizeIsDeleted(e);
    EncodedSizeAppend(e2, r2);
    FeedEntityItemSizeTripUpdate(e);
    EncodedSizeAppend(e3, r3);
    FeedEntityItemSizeVehicle(e);
    EncodedSizeAppend(e4, r4);
    FeedEntityItemSizeAlert(e);
    EncodedSizeAppend(e5, r5);
  }

  lemma FeedEntityItemWellFormedId(e: FeedEntity)
    ensures AllWellFormed([Field(10, WriteString(e.id))])
  {
  }

  lemma FeedEntityItemWellFormedIsDeleted(e: FeedEntity)
    ensures AllWellFormed(EmitIf(e.isDeleted != false, Field(16, WriteBool(e.isDeleted))))
  {
  }

  lemma FeedEntityItemWellFormedTripUpdate(e: FeedEntity)
    ensures AllWellFormed(Emit(e.tripUpdate, 26, WriteNested))
  {
  }

  lemma FeedEntityItemWellFormedVehicle(e: FeedEntity)
    ensures AllWellFormed(Emit(e.vehicle, 34, WriteVehiclePosition))
  {
  }

  lemma FeedEntityItemWellFormedAlert(e: FeedEntity)
    ensures AllWellFormed(Emit(e.alert, 42, WriteAlert))
  {
  }

  /** Every item the writer emits has a tag whose low three bits name its payload's wire type. */
  lemma FeedEntityEncodingWellFormed(e: FeedEntity)
    ensures AllWellFormed(EncodeFeedEntity(e))
  {
    var e1 := [Field(10, WriteString(e.id))];
    var e2 := EmitIf(e.isDeleted != false, Field(16, WriteBool(e.isDeleted)));
    var e3 := Emit(e.tripUpdate, 26, WriteNested);
    var e4 := Emit(e.vehicle, 34, WriteVehiclePosition);
    var e5 := Emit(e.alert, 42, WriteAlert);
    var r5: seq<Field> := [];
    var r4 := e5 + r5;
    var r3 := e4 + r4;
    var r2 := e3 + r3;
    var r1 := e2 + r2;
    FeedEntityItemWellFormedId(e);
    FeedEntityItemWellFormedIsDeleted(e);
    FeedEntityItemWellFormedTripUpdate(e);
    FeedEntityItemWellFormedVehicle(e);
    FeedEntityItemWellFormedAlert(e);
    AllWellFormedAppend(e5, r5);
    AllWellFormedAppend(e4, r4);
    AllWellFormedAppend(e3, r3);
    AllWellFormedAppend(e2, r2);
    AllWellFormedAppend(e1, r1);
  }

  // ---------------- FeedHeader ----------------

  lemma FeedHeaderItemGtfsRealtimeVersion(acc: FeedHeader, h: FeedHeader, rest: seq<Field>)
    ensures Fold(FeedHeaderStep, acc, [Field(10, WriteString(h.gtfsRealtimeVersion))] + rest) == Fold(FeedHeaderStep, acc.(gtfsRealtimeVersion := h.gtfsRealtimeVersion), rest)
  {
    FoldEmit(FeedHeaderStep, acc, acc.(gtfsRealtimeVersion := h.gtfsRealtimeVersion), [Field(10, WriteString(h.gtfsRealtimeVersion))], rest);
  }

  lemma FeedHeaderItemIncrementality(acc: FeedHeader, h: FeedHeader, rest: seq<Field>)
    requires acc.incrementality == FeedHeaderStart().incrementality
    ensures Fold(FeedHeaderStep, acc, EmitIf(h.incrementality != FULL_DATASET, Field(16, WriteInt32(IncrementalityToI32(h.incrementality)))) + rest) == Fold(FeedHeaderStep, acc.(incrementality := h.incrementality), rest)
  {
    IncrementalityRoundTrips(h.incrementality);
    FoldEmit(FeedHeaderStep, acc, acc.(incrementality := h.incrementality), EmitIf(h.incrementality != FULL_DATASET, Field(16, WriteInt32(IncrementalityToI32(h.incrementality)))), rest);
  }

  lemma FeedHeaderItemTimestamp(acc: FeedHeader, h: FeedHeader, rest: seq<Field>)
    requires acc.timestamp == FeedHeaderStart().timestamp
    ensures Fold(FeedHeaderStep, acc, Emit(h.timestamp, 24, WriteUint64) + rest) == Fold(FeedHeaderStep, acc.(timestamp := h.timestamp), rest)
  {
    FoldEmit(FeedHeaderStep, acc, acc.(timestamp := h.timestamp), Emit(h.timestamp, 24, WriteUint64), rest);
  }

  /** Decoding what the writer emits gives back the record. */
  lemma FeedHeaderRoundTrip(h: FeedHeader)
    ensures DecodeFeedHeader(EncodeFeedHeader(h)) == Ok(h)
  {
    var a0 := FeedHeaderStart();
    var a1 := a0.(gtfsRealtimeVersion := h.gtfsRealtimeVersion);
    var a2 := a1.(incrementality := h.incrementality);
    var a3 := a2.(timestamp := h.timestamp);
    var e1 := [Field(10, WriteString(h.gtfsRealtimeVersion))];
    var e2 := EmitIf(h.incrementality != FULL_DATASET, Field(16, WriteInt32(IncrementalityToI32(h.incrementality))));
    var e3 := Emit(h.timestamp, 24, WriteUint64);
    var r3: seq<Field> := [];
    var r2 := e3 + r3;
    var r1 := e2 + r2;
    FeedHeaderItemGtfsRealtimeVersion(a0, h, r1);
    FeedHeaderItemIncrementality(a1, h, r2);
    FeedHeaderItemTimestamp(a2, h, r3);
    assert a3 == h;
  }

  lemma FeedHeaderItemSizeGtfsRealtimeVersion(h: FeedHeader)
    ensures EncodedSize([Field(10, WriteString(h.gtfsRealtimeVersion))]) == StringItemSize(h.gtfsRealtimeVersion)
  {
    EncodedSizeSingle(Field(10, WriteString(h.gtfsRealtimeVersion)));
  }

  lemma FeedHeaderItemSizeIncrementality(h: FeedHeader)
    ensures EncodedSize(EmitIf(h.incrementality != FULL_DATASET, Field(16, WriteInt32(IncrementalityToI32(h.incrementality))))) == (if h.incrementality == FULL_DATASET then 0 else 1 + SizeOfVarint(IncrementalityToI32(h.incrementality)))
  {
    EmitIfSize(h.incrementality != FULL_DATASET, Field(16, WriteInt32(IncrementalityToI32(h.incrementality))));
  }

  lemma FeedHeaderItemSizeTimestamp(h: FeedHeader)
    ensures EncodedSize(Emit(h.timestamp, 24, WriteUint64)) == OptSize(h.timestamp, (x: u64) => 1 + SizeOfVarint(x))
  {
    EmitSize(h.timestamp, 24, WriteUint64, (x: u64) => 1 + SizeOfVarint(x));
  }

  /** `get_size` is the number of bytes `write_message` produces. */
  lemma FeedHeaderSizeMatchesEncoding(h: FeedHeader)
    ensures FeedHeaderSize(h) == EncodedSize(EncodeFeedHeader(h))
  {
    var e1 := [Field(10, WriteString(h.gtfsRealtimeVersion))];
    var e2 := EmitIf(h.incrementality != FULL_DATASET, Field(16, WriteInt32(IncrementalityToI32(h.incrementality))));
    var e3 := Emit(h.timestamp, 24, WriteUint64);
    var r3: seq<Field> := [];
    var r2 := e3 + r3;
    var r1 := e2 + r2;
    FeedHeaderItemSizeGtfsRealtimeVersion(h);
    EncodedSizeAppend(e1, r1);
    FeedHeaderItemSizeIncrementality(h);
    EncodedSizeAppend(e2, r2);
    FeedHeaderItemSizeTimestamp(h);
    EncodedSizeAppend(e3, r3);
  }

  lemma FeedHeaderItemWellFormedGtfsRealtimeVersion(h: FeedHeader)
    ensures AllWellFormed([Field(10, WriteString(h.gtfsRealtimeVersion))])
  {
  }

  lemma FeedHeaderItemWellFormedIncrementality(h: FeedHeader)
    ensures AllWellFormed(EmitIf(h.incrementality != FULL_DATASET, Field(16, WriteInt32(IncrementalityToI32(h.incrementality)))))
  {
  }

  lemma FeedHeaderItemWellFormedTimestamp(h: FeedHeader)
    ensures AllWellFormed(Emit(h.timestamp, 24, WriteUint64))
  {
  }

  /** Every item the writer emits has a tag whose low three bits name its payload's wire type. */
  lemma FeedHeaderEncodingWellFormed(h: FeedHeader)
    ensures AllWellFormed(EncodeFeedHeader(h))
  {
    var e1 := [Field(10, WriteString(h.gtfsRealtimeVersion))];
    var e2 := EmitIf(h.incrementality != FULL_DATASET, Field(16, WriteInt32(IncrementalityToI32(h.incrementality))));
    var e3 := Emit(h.timestamp, 24, WriteUint64);
    var r3: seq<Field> := [];
    var r2 := e3 + r3;
    var r1 := e2 + r2;
    FeedHeaderItemWellFormedGtfsRealtimeVersion(h);
    FeedHeaderItemWellFormedIncrementality(h);
    FeedHeaderItemWellFormedTimestamp(h);
    AllWellFormedAppend(e3, r3);
    AllWellFormedAppend(e2, r2);
    AllWellFormedAppend(e1, r1);
  }

  // ---------------- FeedMessage ----------------

  lemma FeedMessageItemHeader(acc: FeedMessage, m: FeedMessage, rest: seq<Field>)
    ensures Fold(FeedMessageStep, acc, [Field(10, WriteFeedHeader(m.header))] + rest) == Fold(FeedMessageStep, acc.(header := m.header), rest)
  {
    FeedHeaderRoundTrip(m.header);
    FoldEmit(FeedMessageStep, acc, acc.(header := m.header), [Field(10, WriteFeedHeader(m.header))], rest);
  }

  lemma FeedMessageItemEntity(acc: FeedMessage, m: FeedMessage, rest: seq<Field>)
    requires acc.entity == FeedMessageStart().entity
    ensures Fold(FeedMessageStep, acc, Repeated(m.entity, 18, WriteFeedEntity) + rest) == Fold(FeedMessageStep, acc.(entity := m.entity), rest)
  {
    forall m: FeedMessage, x | true
      ensures FeedMessageStep(m, Field(18, WriteFeedEntity(x))) == Ok(AppendEntity(m, x))
    {
      AppendEntityStep(m, x);
    }
    FoldRepeated(FeedMessageStep, acc, m.entity, 18, WriteFeedEntity, AppendEntity, rest);
    AppendEntityAll(acc, m.entity);
    assert acc.entity + m.entity == m.entity;
  }

  /** Decoding what the writer emits gives back the record. */
  lemma FeedMessageRoundTrip(m: FeedMessage)
    ensures DecodeFeedMessage(EncodeFeedMessage(m)) == Ok(m)
  {
    var a0 := FeedMessageStart();
    var a1 := a0.(header := m.header);
    var a2 := a1.(entity := m.entity);
    var e1 := [Field(10, WriteFeedHeader(m.header))];
    var e2 := Repeated(m.entity, 18, WriteFeedEntity);
    var r2: seq<Field> := [];
    var r1 := e2 + r2;
    FeedMessageItemHeader(a0, m, r1);
    FeedMessageItemEntity(a1, m, r2);
    assert a2 == m;
  }

  lemma FeedMessageItemSizeHeader(m: FeedMessage)
    ensures EncodedSize([Field(10, WriteFeedHeader(m.header))]) == 1 + SizeOfLen(FeedHeaderSize(m.header))
  {
    FeedHeaderSizeMatchesEncoding(m.header);
    EncodedSizeSingle(Field(10, WriteFeedHeader(m.header)));
  }

  lemma FeedMessageItemSizeEntity(m: FeedMessage)
    ensures EncodedSize(Repeated(m.entity, 18, WriteFeedEntity)) == SumSizes(m.entity, (x: FeedEntity) => 1 + SizeOfLen(FeedEntitySize(x)))
  {
    FeedMessageEntitySizes(m.entity);
  }

  /** `get_size` is the number of bytes `write_message` produces. */
  lemma FeedMessageSizeMatchesEncoding(m: FeedMessage)
    ensures FeedMessageSize(m) == EncodedSize(EncodeFeedMessage(m))
  {
    var e1 := [Field(10, WriteFeedHeader(m.header))];
    var e2 := Repeated(m.entity, 18, WriteFeedEntity);
    var r2: seq<Field> := [];
    var r1 := e2 + r2;
    FeedMessageItemSizeHeader(m);
    EncodedSizeAppend(e1, r1);
    FeedMessageItemSizeEntity(m);
    EncodedSizeAppend(e2, r2);
  }

  lemma FeedMessageItemWellFormedHeader(m: FeedMessage)
    ensures AllWellFormed([Field(10, WriteFeedHeader(m.header))])
  {
  }

  lemma FeedMessageItemWellFormedEntity(m: FeedMessage)
    ensures AllWellFormed(Repeated(m.entity, 18, WriteFeedEntity))
  {
    RepeatedWellFormed(m.entity, 18, WriteFeedEntity);
  }

  /** Every item the writer emits has a tag whose low three bits name its payload's wire type. */
  lemma FeedMessageEncodingWellFormed(m: FeedMessage)
    ensures AllWellFormed(EncodeFeedMessage(m))
  {
    var e1 := [Field(10, WriteFeedHeader(m.header))];
    var e2 := Repeated(m.entity, 18, WriteFeedEntity);
    var r2: seq<Field> := [];
    var r1 := e2 + r2;
    FeedMessageItemWellFormedHeader(m);
    FeedMessageItemWellFormedEntity(m);
    AllWellFormedAppend(e2, r2);
    AllWellFormedAppend(e1, r1);
  }

  // ---------------- unknown fields ----------------

  /** The tags `Position::from_reader` matches. */
  const PositionTags: set<nat> := {13, 21, 29, 33, 45}

  /**
   * An unknown field is stepped over without changing the record when it is
   * well formed, and stops the decoder otherwise.
   */
  lemma PositionUnknownField(a: seq<Field>, f: Field, b: seq<Field>)
    requires f.tag !in PositionTags
    ensures WellFormed(f) ==> DecodePosition(a + [f] + b) == DecodePosition(a + b)
    ensures !WellFormed(f) && DecodePosition(a).Ok? ==> DecodePosition(a + [f] + b) == Err(Unskippable(f.tag))
  {
    if WellFormed(f) {
      forall m: Position
        ensures PositionStep(m, f) == Ok(m)
      {
      }
      FoldSkip(PositionStep, PositionStart(), a, f, b);
    } else if DecodePosition(a).Ok? {
      FoldAppend(PositionStep, PositionStart(), a + [f], b);
      FoldSnoc(PositionStep, PositionStart(), a, f);
    }
  }

  /** The tags `VehicleDescriptor::from_reader` matches. */
  const VehicleDescriptorTags: set<nat> := {10, 18, 26}

  /**
   * An unknown field is stepped over without changing the record when it is
   * well formed, and stops the decoder otherwise.
   */
  lemma VehicleDescriptorUnknownField(a: seq<Field>, f: Field, b: seq<Field>)
    requires f.tag !in VehicleDescriptorTags
    ensures WellFormed(f) ==> DecodeVehicleDescriptor(a + [f] + b) == DecodeVehicleDescriptor(a + b)
    ensures !WellFormed(f) && DecodeVehicleDescriptor(a).Ok? ==> DecodeVehicleDescriptor(a + [f] + b) == Err(Unskippable(f.tag))
  {
    if WellFormed(f) {
      forall m: VehicleDescriptor
        ensures VehicleDescriptorStep(m, f) == Ok(m)
      {
      }
      FoldSkip(VehicleDescriptorStep, VehicleDescriptorStart(), a, f, b);
    } else if DecodeVehicleDescriptor(a).Ok? {
      FoldAppend(VehicleDescriptorStep, VehicleDescriptorStart(), a + [f], b);
      FoldSnoc(VehicleDescriptorStep, VehicleDescriptorStart(), a, f);
    }
  }

  /** The tags `TripDescriptor::from_reader` matches. */
  const TripDescriptorTags: set<nat> := {10, 42, 48, 18, 26, 32}

  /**
   * An unknown field is stepped over without changing the record when it is
   * well formed, and stops the decoder otherwise.
   */
  lemma TripDescriptorUnknownField(a: seq<Field>, f: Field, b: seq<Field>)
    requires f.tag !in TripDescriptorTags
    ensures WellFormed(f) ==> DecodeTripDescriptor(a + [f] + b) == DecodeTripDescriptor(a + b)
    ensures !WellFormed(f) && DecodeTripDescriptor(a).Ok? ==> DecodeTripDescriptor(a + [f] + b) == Err(Unskippable(f.tag))
  {
    if WellFormed(f) {
      forall m: TripDescriptor
        ensures TripDescriptorStep(m, f) == Ok(m)
      {
      }
      FoldSkip(TripDescriptorStep, TripDescriptorStart(), a, f, b);
    } else if DecodeTripDescriptor(a).Ok? {
      FoldAppend(TripDescriptorStep, TripDescriptorStart(), a + [f], b);
      FoldSnoc(TripDescriptorStep, TripDescriptorStart(), a, f);
    }
  }

  /** The tags `VehiclePosition::from_reader` matches. */
  const VehiclePositionTags: set<nat> := {10, 66, 18, 24, 58, 32, 40, 48, 72}

  /**
   * An unknown field is stepped over without changing the record when it is
   * well formed, and stops the decoder otherwise.
   */
  lemma VehiclePositionUnknownField(a: seq<Field>, f: Field, b: seq<Field>)
    requires f.tag !in VehiclePositionTags
    ensures WellFormed(f) ==> DecodeVehiclePosition(a + [f] + b) == DecodeVehiclePosition(a + b)
    ensures !WellFormed(f) && DecodeVehiclePosition(a).Ok? ==> DecodeVehiclePosition(a + [f] + b) == Err(Unskippable(f.tag))
  {
    if WellFormed(f) {
      forall m: VehiclePosition
        ensures VehiclePositionStep(m, f) == Ok(m)
      {
      }
      FoldSkip(VehiclePositionStep, VehiclePositionStart(), a, f, b);
    } else if DecodeVehiclePosition(a).Ok? {
      FoldAppend(VehiclePositionStep, VehiclePositionStart(), a + [f], b);
      FoldSnoc(VehiclePositionStep, VehiclePositionStart(), a, f);
    }
  }

  /** The tags `Alert::from_reader` matches. */
  const AlertTags: set<nat> := {10, 42, 48, 56, 66, 82, 90}

  /**
   * An unknown field is stepped over without changing the record when it is
   * well formed, and stops the decoder otherwise.
   */
  lemma AlertUnknownField(a: seq<Field>, f: Field, b: seq<Field>)
    requires f.tag !in AlertTags
    ensures WellFormed(f) ==> DecodeAlert(a + [f] + b) == DecodeAlert(a + b)
    ensures !WellFormed(f) && DecodeAlert(a).Ok? ==> DecodeAlert(a + [f] + b) == Err(Unskippable(f.tag))
  {
    if WellFormed(f) {
      forall m: Alert
        ensures AlertStep(m, f) == Ok(m)
      {
      }
      FoldSkip(AlertStep, AlertStart(), a, f, b);
    } else if DecodeAlert(a).Ok? {
      FoldAppend(AlertStep, AlertStart(), a + [f], b);
      FoldSnoc(AlertStep, AlertStart(), a, f);
    }
  }

  /** The tags `FeedEntity::from_reader` matches. */
  const FeedEntityTags: set<nat> := {10, 16, 26, 34, 42}

  /**
   * An unknown field is stepped over without changing the record when it is
   * well formed, and stops the decoder otherwise.
   */
  lemma FeedEntityUnknownField(a: seq<Field>, f: Field, b: seq<Field>)
    requires f.tag !in FeedEntityTags
    ensures WellFormed(f) ==> DecodeFeedEntity(a + [f] + b) == DecodeFeedEntity(a + b)
    ensures !WellFormed(f) && DecodeFeedEntity(a).Ok? ==> DecodeFeedEntity(a + [f] + b) == Err(Unskippable(f.tag))
  {
    if WellFormed(f) {
      forall m: FeedEntity
        ensures FeedEntityStep(m, f) == Ok(m)
      {
      }
      FoldSkip(FeedEntityStep, FeedEntityStart(), a, f, b);
    } else if DecodeFeedEntity(a).Ok? {
      FoldAppend(FeedEntityStep, FeedEntityStart(), a + [f], b);
      FoldSnoc(FeedEntityStep, FeedEntityStart(), a, f);
    }
  }

  /** The tags `FeedHeader::from_reader` matches. */
  const FeedHeaderTags: set<nat> := {10, 16, 24}

  /**
   * An unknown field is stepped over without changing the record when it is
   * well formed, and stops the decoder otherwise.
   */
  lemma FeedHeaderUnknownField(a: seq<Field>, f: Field, b: seq<Field>)
    requires f.tag !in FeedHeaderTags
    ensures WellFormed(f) ==> DecodeFeedHeader(a + [f] + b) == DecodeFeedHeader(a + b)
    ensures !WellFormed(f) && DecodeFeedHeader(a).Ok? ==> DecodeFeedHeader(a + [f] + b) == Err(Unskippable(f.tag))
  {
    if WellFormed(f) {
      forall m: FeedHeader
        ensures FeedHeaderStep(m, f) == Ok(m)
      {
      }
      FoldSkip(FeedHeaderStep, FeedHeaderStart(), a, f, b);
    } else if DecodeFeedHeader(a).Ok? {
      FoldAppend(FeedHeaderStep, FeedHeaderStart(), a + [f], b);
      FoldSnoc(FeedHeaderStep, FeedHeaderStart(), a, f);
    }
  }

  /** The tags `FeedMessage::from_reader` matches. */
  const FeedMessageTags: set<nat> := {10, 18}

  /**
   * An unknown field is stepped over without changing the record when it is
   * well formed, and stops the decoder otherwise.
   */
  lemma FeedMessageUnknownField(a: seq<Field>, f: Field, b: seq<Field>)
    requires f.tag !in FeedMessageTags
    ensures WellFormed(f) ==> DecodeFeedMessage(a + [f] + b) == DecodeFeedMessage(a + b)
    ensures !WellFormed(f) && DecodeFeedMessage(a).Ok? ==> DecodeFeedMessage(a + [f] + b) == Err(Unskippable(f.tag))
  {
    if WellFormed(f) {
      forall m: FeedMessage
        ensures FeedMessageStep(m, f) == Ok(m)
      {
      }
      FoldSkip(FeedMessageStep, FeedMessageStart(), a, f, b);
    } else if DecodeFeedMessage(a).Ok? {
      FoldAppend(FeedMessageStep, FeedMessageStart(), a + [f], b);
      FoldSnoc(FeedMessageStep, FeedMessageStart(), a, f);
    }
  }

  // ---------------- stream order ----------------

  /** Reading a plain field of Position fails or not whatever the record, and a second read of it overwrites the first. */
  lemma PositionPlainStep(m0: Position, m: Position, f1: Field, f2: Field)
    requires f1.tag == f2.tag && f1.tag in PositionTags
    requires PositionStep(m0, f1).Ok?
    ensures PositionStep(m, f1).Ok?
    ensures PositionStep(PositionStep(m, f1).value, f2) == PositionStep(m, f2)
  {
  }

  /** A successful read of a plain field of Position commutes with an item of any other tag. */
  lemma PositionPlainStepCommutes(m: Position, f: Field, g: Field)
    requires f.tag in PositionTags && g.tag != f.tag
    requires PositionStep(m, f).Ok?
    ensures PositionStep(PositionStep(m, f).value, g) == Then(PositionStep, PositionStep(m, g), f)
  {
  }

  /**
   * Of two items of one plain field of a position, the later wins: the
   * earlier one only matters by the error it may raise, and the items of
   * other fields in between are unaffected by it.
   */
  lemma PositionLastWins(a: seq<Field>, f1: Field, b: seq<Field>, f2: Field)
    requires f1.tag == f2.tag && f1.tag in PositionTags
    requires forall i :: 0 <= i < |b| ==> b[i].tag != f1.tag
    ensures DecodePosition(a + [f1] + b + [f2]) ==
            if DecodePosition(a + [f1]).Err? then DecodePosition(a + [f1]) else DecodePosition(a + b + [f2])
  {
    if DecodePosition(a + [f1]).Err? {
      FoldAppend(PositionStep, PositionStart(), a + [f1], b + [f2]);
      assert a + [f1] + b + [f2] == (a + [f1]) + (b + [f2]);
    } else {
      FoldSnoc(PositionStep, PositionStart(), a, f1);
      var m0 := DecodePosition(a).value;
      forall m: Position
        ensures PositionStep(m, f1).Ok?
      {
        PositionPlainStep(m0, m, f1, f2);
      }
      forall m: Position, g | g in b
        ensures PositionStep(PositionStep(m, f1).value, g) == Then(PositionStep, PositionStep(m, g), f1)
      {
        PositionPlainStepCommutes(m, f1, g);
      }
      forall m: Position
        ensures PositionStep(PositionStep(m, f1).value, f2) == PositionStep(m, f2)
      {
        PositionPlainStep(m0, m, f1, f2);
      }
      FoldOverride(PositionStep, PositionStart(), a, f1, b, f2);
    }
  }

  /** Reading a plain field of VehicleDescriptor fails or not whatever the record, and a second read of it overwrites the first. */
  lemma VehicleDescriptorPlainStep(m0: VehicleDescriptor, m: VehicleDescriptor, f1: Field, f2: Field)
    requires f1.tag == f2.tag && f1.tag in VehicleDescriptorTags
    requires VehicleDescriptorStep(m0, f1).Ok?
    ensures VehicleDescriptorStep(m, f1).Ok?
    ensures VehicleDescriptorStep(VehicleDescriptorStep(m, f1).value, f2) == VehicleDescriptorStep(m, f2)
  {
  }

  /** A successful read of a plain field of VehicleDescriptor commutes with an item of any other tag. */
  lemma VehicleDescriptorPlainStepCommutes(m: VehicleDescriptor, f: Field, g: Field)
    requires f.tag in VehicleDescriptorTags && g.tag != f.tag
    requires VehicleDescriptorStep(m, f).Ok?
    ensures VehicleDescriptorStep(VehicleDescriptorStep(m, f).value, g) == Then(VehicleDescriptorStep, VehicleDescriptorStep(m, g), f)
  {
  }

  /**
   * Of two items of one plain field of a vehicle descriptor, the later wins: the
   * earlier one only matters by the error it may raise, and the items of
   * other fields in between are unaffected by it.
   */
  lemma VehicleDescriptorLastWins(a: seq<Field>, f1: Field, b: seq<Field>, f2: Field)
    requires f1.tag == f2.tag && f1.tag in VehicleDescriptorTags
    requires forall i :: 0 <= i < |b| ==> b[i].tag != f1.tag
    ensures DecodeVehicleDescriptor(a + [f1] + b + [f2]) ==
            if DecodeVehicleDescriptor(a + [f1]).Err? then DecodeVehicleDescriptor(a + [f1]) else DecodeVehicleDescriptor(a + b + [f2])
  {
    if DecodeVehicleDescriptor(a + [f1]).Err? {
      FoldAppend(VehicleDescriptorStep, VehicleDescriptorStart(), a + [f1], b + [f2]);
      assert a + [f1] + b + [f2] == (a + [f1]) + (b + [f2]);
    } else {
      FoldSnoc(VehicleDescriptorStep, VehicleDescriptorStart(), a, f1);
      var m0 := DecodeVehicleDescriptor(a).value;
      forall m: VehicleDescriptor
        ensures VehicleDescriptorStep(m, f1).Ok?
      {
        VehicleDescriptorPlainStep(m0, m, f1, f2);
      }
      forall m: VehicleDescriptor, g | g in b
        ensures VehicleDescriptorStep(VehicleDescriptorStep(m, f1).value, g) == Then(VehicleDescriptorStep, VehicleDescriptorStep(m, g), f1)
      {
        VehicleDescriptorPlainStepCommutes(m, f1, g);
      }
      forall m: VehicleDescriptor
        ensures VehicleDescriptorStep(VehicleDescriptorStep(m, f1).value, f2) == VehicleDescriptorStep(m, f2)
      {
        VehicleDescriptorPlainStep(m0, m, f1, f2);
      }
      FoldOverride(VehicleDescriptorStep, VehicleDescriptorStart(), a, f1, b, f2);
    }
  }

  /** Reading a plain field of TripDescriptor fails or not whatever the record, and a second read of it overwrites the first. */
  lemma TripDescriptorPlainStep(m0: TripDescriptor, m: TripDescriptor, f1: Field, f2: Field)
    requires f1.tag == f2.tag && f1.tag in TripDescriptorTags
    requires TripDescriptorStep(m0, f1).Ok?
    ensures TripDescriptorStep(m, f1).Ok?
    ensures TripDescriptorStep(TripDescriptorStep(m, f1).value, f2) == TripDescriptorStep(m, f2)
  {
  }

  /** A successful read of a plain field of TripDescriptor commutes with an item of any other tag. */
  lemma TripDescriptorPlainStepCommutes(m: TripDescriptor, f: Field, g: Field)
    requires f.tag in TripDescriptorTags && g.tag != f.tag
    requires TripDescriptorStep(m, f).Ok?
    ensures TripDescriptorStep(TripDescriptorStep(m, f).value, g) == Then(TripDescriptorStep, TripDescriptorStep(m, g), f)
  {
  }

  /**
   * Of two items of one plain field of a trip descriptor, the later wins: the
   * earlier one only matters by the error it may raise, and the items of
   * other fields in between are unaffected by it.
   */
  lemma TripDescriptorLastWins(a: seq<Field>, f1: Field, b: seq<Field>, f2: Field)
    requires f1.tag == f2.tag && f1.tag in TripDescriptorTags
    requires forall i :: 0 <= i < |b| ==> b[i].tag != f1.tag
    ensures DecodeTripDescriptor(a + [f1] + b + [f2]) ==
            if DecodeTripDescriptor(a + [f1]).Err? then DecodeTripDescriptor(a + [f1]) else DecodeTripDescriptor(a + b + [f2])
  {
    if DecodeTripDescriptor(a + [f1]).Err? {
      FoldAppend(TripDescriptorStep, TripDescriptorStart(), a + [f1], b + [f2]);
      assert a + [f1] + b + [f2] == (a + [f1]) + (b + [f2]);
    } else {
      FoldSnoc(TripDescriptorStep, TripDescriptorStart(), a, f1);
      var m0 := DecodeTripDescriptor(a).value;
      forall m: TripDescriptor
        ensures TripDescriptorStep(m, f1).Ok?
      {
        TripDescriptorPlainStep(m0, m, f1, f2);
      }
      forall m: TripDescriptor, g | g in b
        ensures TripDescriptorStep(TripDescriptorStep(m, f1).value, g) == Then(TripDescriptorStep, TripDescriptorStep(m, g), f1)
      {
        TripDescriptorPlainStepCommutes(m, f1, g);
      }
      forall m: TripDescriptor
        ensures TripDescriptorStep(TripDescriptorStep(m, f1).value, f2) == TripDescriptorStep(m, f2)
      {
        TripDescriptorPlainStep(m0, m, f1, f2);
      }
      FoldOverride(TripDescriptorStep, TripDescriptorStart(), a, f1, b, f2);
    }
  }

  /** Reading a plain field of VehiclePosition fails or not whatever the record, and a second read of it overwrites the first. */
  lemma VehiclePositionPlainStep(m0: VehiclePosition, m: VehiclePosition, f1: Field, f2: Field)
    requires f1.tag == f2.tag && f1.tag in VehiclePositionTags
    requires VehiclePositionStep(m0, f1).Ok?
    ensures VehiclePositionStep(m, f1).Ok?
    ensures VehiclePositionStep(VehiclePositionStep(m, f1).value, f2) == VehiclePositionStep(m, f2)
  {
  }

  /** A successful read of a plain field of VehiclePosition commutes with an item of any other tag. */
  lemma VehiclePositionPlainStepCommutes(m: VehiclePosition, f: Field, g: Field)
    requires f.tag in VehiclePositionTags && g.tag != f.tag
    requires VehiclePositionStep(m, f).Ok?
    ensures VehiclePositionStep(VehiclePositionStep(m, f).value, g) == Then(VehiclePositionStep, VehiclePositionStep(m, g), f)
  {
  }

  /**
   * Of two items of one plain field of a vehicle position, the later wins: the
   * earlier one only matters by the error it may raise, and the items of
   * other fields in between are unaffected by it.
   */
  lemma VehiclePositionLastWins(a: seq<Field>, f1: Field, b: seq<Field>, f2: Field)
    requires f1.tag == f2.tag && f1.tag in VehiclePositionTags
    requires forall i :: 0 <= i < |b| ==> b[i].tag != f1.tag
    ensures DecodeVehiclePosition(a + [f1] + b + [f2]) ==
            if DecodeVehiclePosition(a + [f1]).Err? then DecodeVehiclePosition(a + [f1]) else DecodeVehiclePosition(a + b + [f2])
  {
    if DecodeVehiclePosition(a + [f1]).Err? {
      FoldAppend(VehiclePositionStep, VehiclePositionStart(), a + [f1], b + [f2]);
      assert a + [f1] + b + [f2] == (a + [f1]) + (b + [f2]);
    } else {
      FoldSnoc(VehiclePositionStep, VehiclePositionStart(), a, f1);
      var m0 := DecodeVehiclePosition(a).value;
      forall m: VehiclePosition
        ensures VehiclePositionStep(m, f1).Ok?
      {
        VehiclePositionPlainStep(m0, m, f1, f2);
      }
      forall m: VehiclePosition, g | g in b
        ensures VehiclePositionStep(VehiclePositionStep(m, f1).value, g) == Then(VehiclePositionStep, VehiclePositionStep(m, g), f1)
      {
        VehiclePositionPlainStepCommutes(m, f1, g);
      }
      forall m: VehiclePosition
        ensures VehiclePositionStep(VehiclePositionStep(m, f1).value, f2) == VehiclePositionStep(m, f2)
      {
        VehiclePositionPlainStep(m0, m, f1, f2);
      }
      FoldOverride(VehiclePositionStep, VehiclePositionStart(), a, f1, b, f2);
    }
  }

  /** Reading a plain field of Alert fails or not whatever the record, and a second read of it overwrites the first. */
  lemma AlertPlainStep(m0: Alert, m: Alert, f1: Field, f2: Field)
    requires f1.tag == f2.tag && f1.tag in AlertTags - {10, 42}
    requires AlertStep(m0, f1).Ok?
    ensures AlertStep(m, f1).Ok?
    ensures AlertStep(AlertStep(m, f1).value, f2) == AlertStep(m, f2)
  {
  }

  /** A successful read of a plain field of Alert commutes with an item of any other tag. */
  lemma AlertPlainStepCommutes(m: Alert, f: Field, g: Field)
    requires f.tag in AlertTags - {10, 42} && g.tag != f.tag
    requires AlertStep(m, f).Ok?
    ensures AlertStep(AlertStep(m, f).value, g) == Then(AlertStep, AlertStep(m, g), f)
  {
  }

  /**
   * Of two items of one plain field of an alert (its two repeated fields aside), the later wins: the
   * earlier one only matters by the error it may raise, and the items of
   * other fields in between are unaffected by it.
   */
  lemma AlertLastWins(a: seq<Field>, f1: Field, b: seq<Field>, f2: Field)
    requires f1.tag == f2.tag && f1.tag in AlertTags - {10, 42}
    requires forall i :: 0 <= i < |b| ==> b[i].tag != f1.tag
    ensures DecodeAlert(a + [f1] + b + [f2]) ==
            if DecodeAlert(a + [f1]).Err? then DecodeAlert(a + [f1]) else DecodeAlert(a + b + [f2])
  {
    if DecodeAlert(a + [f1]).Err? {
      FoldAppend(AlertStep, AlertStart(), a + [f1], b + [f2]);
      assert a + [f1] + b + [f2] == (a + [f1]) + (b + [f2]);
    } else {
      FoldSnoc(AlertStep, AlertStart(), a, f1);
      var m0 := DecodeAlert(a).value;
      forall m: Alert
        ensures AlertStep(m, f1).Ok?
      {
        AlertPlainStep(m0, m, f1, f2);
      }
      forall m: Alert, g | g in b
        ensures AlertStep(AlertStep(m, f1).value, g) == Then(AlertStep, AlertStep(m, g), f1)
      {
        AlertPlainStepCommutes(m, f1, g);
      }
      forall m: Alert
        ensures AlertStep(AlertStep(m, f1).value, f2) == AlertStep(m, f2)
      {
        AlertPlainStep(m0, m, f1, f2);
      }
      FoldOverride(AlertStep, AlertStart(), a, f1, b, f2);
    }
  }

  /** Reading a plain field of FeedEntity fails or not whatever the record, and a second read of it overwrites the first. */
  lemma FeedEntityPlainStep(m0: FeedEntity, m: FeedEntity, f1: Field, f2: Field)
    requires f1.tag == f2.tag && f1.tag in FeedEntityTags
    requires FeedEntityStep(m0, f1).Ok?
    ensures FeedEntityStep(m, f1).Ok?
    ensures FeedEntityStep(FeedEntityStep(m, f1).value, f2) == FeedEntityStep(m, f2)
  {
  }

  /** A successful read of a plain field of FeedEntity commutes with an item of any other tag. */
  lemma FeedEntityPlainStepCommutes(m: FeedEntity, f: Field, g: Field)
    requires f.tag in FeedEntityTags && g.tag != f.tag
    requires FeedEntityStep(m, f).Ok?
    ensures FeedEntityStep(FeedEntityStep(m, f).value, g) == Then(FeedEntityStep, FeedEntityStep(m, g), f)
  {
  }

  /**
   * Of two items of one plain field of a feed entity, the later wins: the
   * earlier one only matters by the error it may raise, and the items of
   * other fields in between are unaffected by it.
   */
  lemma FeedEntityLastWins(a: seq<Field>, f1: Field, b: seq<Field>, f2: Field)
    requires f1.tag == f2.tag && f1.tag in FeedEntityTags
    requires forall i :: 0 <= i < |b| ==> b[i].tag != f1.tag
    ensures DecodeFeedEntity(a + [f1] + b + [f2]) ==
            if DecodeFeedEntity(a + [f1]).Err? then DecodeFeedEntity(a + [f1]) else DecodeFeedEntity(a + b + [f2])
  {
    if DecodeFeedEntity(a + [f1]).Err? {
      FoldAppend(FeedEntityStep, FeedEntityStart(), a + [f1], b + [f2]);
      assert a + [f1] + b + [f2] == (a + [f1]) + (b + [f2]);
    } else {
      FoldSnoc(FeedEntityStep, FeedEntityStart(), a, f1);
      var m0 := DecodeFeedEntity(a).value;
      forall m: FeedEntity
        ensures FeedEntityStep(m, f1).Ok?
      {
        FeedEntityPlainStep(m0, m, f1, f2);
      }
      forall m: FeedEntity, g | g in b
        ensures FeedEntityStep(FeedEntityStep(m, f1).value, g) == Then(FeedEntityStep, FeedEntityStep(m, g), f1)
      {
        FeedEntityPlainStepCommutes(m, f1, g);
      }
      forall m: FeedEntity
        ensures FeedEntityStep(FeedEntityStep(m, f1).value, f2) == FeedEntityStep(m, f2)
      {
        FeedEntityPlainStep(m0, m, f1, f2);
      }
      FoldOverride(FeedEntityStep, FeedEntityStart(), a, f1, b, f2);
    }
  }

  /** Reading a plain field of FeedHeader fails or not whatever the record, and a second read of it overwrites the first. */
  lemma FeedHeaderPlainStep(m0: FeedHeader, m: FeedHeader, f1: Field, f2: Field)
    requires f1.tag == f2.tag && f1.tag in FeedHeaderTags
    requires FeedHeaderStep(m0, f1).Ok?
    ensures FeedHeaderStep(m, f1).Ok?
    ensures FeedHeaderStep(FeedHeaderStep(m, f1).value, f2) == FeedHeaderStep(m, f2)
  {
  }

  /** A successful read of a plain field of FeedHeader commutes with an item of any other tag. */
  lemma FeedHeaderPlainStepCommutes(m: FeedHeader, f: Field, g: Field)
    requires f.tag in FeedHeaderTags && g.tag != f.tag
    requires FeedHeaderStep(m, f).Ok?
    ensures FeedHeaderStep(FeedHeaderStep(m, f).value, g) == Then(FeedHeaderStep, FeedHeaderStep(m, g), f)
  {
  }

  /**
   * Of two items of one plain field of a feed header, the later wins: the
   * earlier one only matters by the error it may raise, and the items of
   * other fields in between are unaffected by it.
   */
  lemma FeedHeaderLastWins(a: seq<Field>, f1: Field, b: seq<Field>, f2: Field)
    requires f1.tag == f2.tag && f1.tag in FeedHeaderTags
    requires forall i :: 0 <= i < |b| ==> b[i].tag != f1.tag
    ensures DecodeFeedHeader(a + [f1] + b + [f2]) ==
            if DecodeFeedHeader(a + [f1]).Err? then DecodeFeedHeader(a + [f1]) else DecodeFeedHeader(a + b + [f2])
  {
    if DecodeFeedHeader(a + [f1]).Err? {
      FoldAppend(FeedHeaderStep, FeedHeaderStart(), a + [f1], b + [f2]);
      assert a + [f1] + b + [f2] == (a + [f1]) + (b + [f2]);
    } else {
      FoldSnoc(FeedHeaderStep, FeedHeaderStart(), a, f1);
      var m0 := DecodeFeedHeader(a).value;
      forall m: FeedHeader
        ensures FeedHeaderStep(m, f1).Ok?
      {
        FeedHeaderPlainStep(m0, m, f1, f2);
      }
      forall m: FeedHeader, g | g in b
        ensures FeedHeaderStep(FeedHeaderStep(m, f1).value, g) == Then(FeedHeaderStep, FeedHeaderStep(m, g), f1)
      {
        FeedHeaderPlainStepCommutes(m, f1, g);
      }
      forall m: FeedHeader
        ensures FeedHeaderStep(FeedHeaderStep(m, f1).value, f2) == FeedHeaderStep(m, f2)
      {
        FeedHeaderPlainStep(m0, m, f1, f2);
      }
      FoldOverride(FeedHeaderStep, FeedHeaderStart(), a, f1, b, f2);
    }
  }

  /** Reading a plain field of FeedMessage fails or not whatever the record, and a second read of it overwrites the first. */
  lemma FeedMessagePlainStep(m0: FeedMessage, m: FeedMessage, f1: Field, f2: Field)
    requires f1.tag == f2.tag && f1.tag in {10}
    requires FeedMessageStep(m0, f1).Ok?
    ensures FeedMessageStep(m, f1).Ok?
    ensures FeedMessageStep(FeedMessageStep(m, f1).value, f2) == FeedMessageStep(m, f2)
  {
  }

  /** A successful read of a plain field of FeedMessage commutes with an item of any other tag. */
  lemma FeedMessagePlainStepCommutes(m: FeedMessage, f: Field, g: Field)
    requires f.tag in {10} && g.tag != f.tag
    requires FeedMessageStep(m, f).Ok?
    ensures FeedMessageStep(FeedMessageStep(m, f).value, g) == Then(FeedMessageStep, FeedMessageStep(m, g), f)
  {
  }

  /**
   * Of two items of one plain field of a feed message, whose only plain field is the header, the later wins: the
   * earlier one only matters by the error it may raise, and the items of
   * other fields in between are unaffected by it.
   */
  lemma FeedMessageLastHeaderWins(a: seq<Field>, f1: Field, b: seq<Field>, f2: Field)
    requires f1.tag == f2.tag && f1.tag in {10}
    requires forall i :: 0 <= i < |b| ==> b[i].tag != f1.tag
    ensures DecodeFeedMessage(a + [f1] + b + [f2]) ==
            if DecodeFeedMessage(a + [f1]).Err? then DecodeFeedMessage(a + [f1]) else DecodeFeedMessage(a + b + [f2])
  {
    if DecodeFeedMessage(a + [f1]).Err? {
      FoldAppend(FeedMessageStep, FeedMessageStart(), a + [f1], b + [f2]);
      assert a + [f1] + b + [f2] == (a + [f1]) + (b + [f2]);
    } else {
      FoldSnoc(FeedMessageStep, FeedMessageStart(), a, f1);
      var m0 := DecodeFeedMessage(a).value;
      forall m: FeedMessage
        ensures FeedMessageStep(m, f1).Ok?
      {
        FeedMessagePlainStep(m0, m, f1, f2);
      }
      forall m: FeedMessage, g | g in b
        ensures FeedMessageStep(FeedMessageStep(m, f1).value, g) == Then(FeedMessageStep, FeedMessageStep(m, g), f1)
      {
        FeedMessagePlainStepCommutes(m, f1, g);
      }
      forall m: FeedMessage
        ensures FeedMessageStep(FeedMessageStep(m, f1).value, f2) == FeedMessageStep(m, f2)
      {
        FeedMessagePlainStep(m0, m, f1, f2);
      }
      FoldOverride(FeedMessageStep, FeedMessageStart(), a, f1, b, f2);
    }
  }

  /** A further informed entity is appended after those read so far, whatever came in between. */
  lemma AlertInformedEntityAppends(items: seq<Field>, r: RawMessage)
    ensures DecodeAlert(items + [Field(42, LenMessage(r))]) ==
            match DecodeAlert(items)
            case Err(e) => Err(e)
            case Ok(a) => Ok(a.(informedEntity := a.informedEntity + [r]))
  {
    FoldSnoc(AlertStep, AlertStart(), items, Field(42, LenMessage(r)));
  }

  /** A further entity item is decoded and appended after the entities read so far. */
  lemma FeedMessageEntityAppends(items: seq<Field>, inner: seq<Field>)
    ensures DecodeFeedMessage(items + [Field(18, LenMessage(inner))]) ==
            match DecodeFeedMessage(items)
            case Err(e) => Err(e)
            case Ok(m) =>
              match DecodeFeedEntity(inner)
              case Err(e) => Err(e)
              case Ok(x) => Ok(m.(entity := m.entity + [x]))
  {
    FoldSnoc(FeedMessageStep, FeedMessageStart(), items, Field(18, LenMessage(inner)));
  }

  /** A further active period is appended after those read so far, whatever came in between. */
  lemma AlertActivePeriodAppends(items: seq<Field>, r: RawMessage)
    ensures DecodeAlert(items + [Field(10, LenMessage(r))]) ==
            match DecodeAlert(items)
            case Err(e) => Err(e)
            case Ok(a) => Ok(a.(activePeriod := a.activePeriod + [r]))
  {
    FoldSnoc(AlertStep, AlertStart(), items, Field(10, LenMessage(r)));
  }

  /**
   * `VehiclePosition::from_reader` starts the status at IN_TRANSIT_TO while
   * the enum's default is INCOMING_AT, so an empty message does not decode
   * to `default()`.
   */
  lemma VehiclePositionEmptyDecode()
    ensures DecodeVehiclePosition([]) == Ok(VehiclePositionStart())
    ensures DecodeVehiclePosition([]) != Ok(VehiclePositionDefault())
    ensures VehiclePositionDefault().currentStatus == INCOMING_AT
  {
  }

  /**
   * `Alert::from_reader` starts the effect at UNKNOWN_EFFECT while the
   * enum's default is NO_SERVICE, so an empty message does not decode to
   * `default()`.
   */
  lemma AlertEmptyDecode()
    ensures DecodeAlert([]) == Ok(AlertStart())
    ensures DecodeAlert([]) != Ok(AlertDefault())
    ensures AlertDefault().effect == NO_SERVICE
  {
  }

}
