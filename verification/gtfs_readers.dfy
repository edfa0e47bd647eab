/**
 * The `from_reader` loops as written: a record starts at the decoder's
 * starting value and, item by item while input remains, one field is
 * assigned (or pushed, for a repeated field) according to the item's tag;
 * a payload of the wrong kind, or an unknown item that cannot be skipped,
 * ends the loop with an error.  Each reader is proved to compute the fold
 * that specifies it.
 */
module RealtimeReaders {
  import opened Wrappers
  import opened GtfsWire
  import opened RealtimeEnums
  import opened RealtimeMessages

  /** The fold from position `i` on is one step followed by the fold from `i + 1`. */
  lemma FoldAt<M>(step: (M, Field) -> Decoded<M>, acc: M, items: seq<Field>, i: nat)
    requires i < |items|
    ensures Fold(step, acc, items[i..]) ==
            match step(acc, items[i])
            case Err(e) => Err(e)
            case Ok(m) => Fold(step, m, items[i + 1..])
  {
    assert items[i..][0] == items[i];
    assert items[i..][1..] == items[i + 1..];
  }

  /** `Position::from_reader`. */
  method ReadPosition(items: seq<Field>) returns (r: Decoded<Position>)
    ensures r == DecodePosition(items)
  {
    var msg := PositionStart();
    var i := 0;
    while i < |items|
      invariant 0 <= i <= |items|
      invariant Fold(PositionStep, msg, items[i..]) == DecodePosition(items)
    {
      var f := items[i];
      FoldAt(PositionStep, msg, items, i);
      match f.tag {
        case 13 =>
          var x :- ReadFloat(f.value);
          msg := msg.(latitude := x);
        case 21 =>
          var x :- ReadFloat(f.value);
          msg := msg.(longitude := x);
        case 29 =>
          var x :- ReadFloat(f.value);
          msg := msg.(bearing := Some(x));
        case 33 =>
          var x :- ReadDouble(f.value);
          msg := msg.(odometer := Some(x));
        case 45 =>
          var x :- ReadFloat(f.value);
          msg := msg.(speed := Some(x));
        case _ =>
          if !WellFormed(f) {
            return Err(Unskippable(f.tag));
          }
      }
      i := i + 1;
    }
    r := Ok(msg);
  }

  /** `VehicleDescriptor::from_reader`. */
  method ReadVehicleDescriptor(items: seq<Field>) returns (r: Decoded<VehicleDescriptor>)
    ensures r == DecodeVehicleDescriptor(items)
  {
    var msg := VehicleDescriptorStart();
    var i := 0;
    while i < |items|
      invariant 0 <= i <= |items|
      invariant Fold(VehicleDescriptorStep, msg, items[i..]) == DecodeVehicleDescriptor(items)
    {
      var f := items[i];
      FoldAt(VehicleDescriptorStep, msg, items, i);
      match f.tag {
        case 10 =>
          var s :- ReadString(f.value);
          msg := msg.(id := Some(s));
        case 18 =>
          var s :- ReadString(f.value);
          msg := msg.(vehicleLabel := Some(s));
        case 26 =>
          var s :- ReadString(f.value);
          msg := msg.(licensePlate := Some(s));
        case _ =>
          if !WellFormed(f) {
            return Err(Unskippable(f.tag));
          }
      }
      i := i + 1;
    }
    r := Ok(msg);
  }

  /** `TripDescriptor::from_reader`. */
  method ReadTripDescriptor(items: seq<Field>) returns (r: Decoded<TripDescriptor>)
    ensures r == DecodeTripDescriptor(items)
  {
    var msg := TripDescriptorStart();
    var i := 0;
    while i < |items|
      invariant 0 <= i <= |items|
      invariant Fold(TripDescriptorStep, msg, items[i..]) == DecodeTripDescriptor(items)
    {
      var f := items[i];
      FoldAt(TripDescriptorStep, msg, items, i);
      match f.tag {
        case 10 =>
          var s :- ReadString(f.value);
          msg := msg.(tripId := Some(s));
        case 42 =>
          var s :- ReadString(f.value);
          msg := msg.(routeId := Some(s));
        case 48 =>
          var x :- ReadUint32(f.value);
          msg := msg.(directionId := Some(x));
        case 18 =>
          var s :- ReadString(f.value);
          msg := msg.(startTime := Some(s));
        case 26 =>
          var s :- ReadString(f.value);
          msg := msg.(startDate := Some(s));
        case 32 =>
          var e :- ReadEnum(f.value, ScheduleRelationshipFromI32);
          msg := msg.(scheduleRelationship := Some(e));
        case _ =>
          if !WellFormed(f) {
            return Err(Unskippable(f.tag));
          }
      }
      i := i + 1;
    }
    r := Ok(msg);
  }

  /** `VehiclePosition::from_reader`. */
  method ReadVehiclePosition(items: seq<Field>) returns (r: Decoded<VehiclePosition>)
    ensures r == DecodeVehiclePosition(items)
  {
    var msg := VehiclePositionStart();
    var i := 0;
    while i < |items|
      invariant 0 <= i <= |items|
      invariant Fold(VehiclePositionStep, msg, items[i..]) == DecodeVehiclePosition(items)
    {
      var f := items[i];
      FoldAt(VehiclePositionStep, msg, items, i);
      match f.tag {
        case 10 =>
          var inner :- ReadNested(f.value);
          var t :- ReadTripDescriptor(inner);
          msg := msg.(trip := Some(t));
        case 66 =>
          var inner :- ReadNested(f.value);
          var d :- ReadVehicleDescriptor(inner);
          msg := msg.(vehicle := Some(d));
        case 18 =>
          var inner :- ReadNested(f.value);
          var p :- ReadPosition(inner);
          msg := msg.(position := Some(p));
        case 24 =>
          var x :- ReadUint32(f.value);
          msg := msg.(currentStopSequence := Some(x));
        case 58 =>
          var s :- ReadString(f.value);
          msg := msg.(stopId := Some(s));
        case 32 =>
          var e :- ReadEnum(f.value, VehicleStopStatusFromI32);
          msg := msg.(currentStatus := e);
        case 40 =>
          var x :- ReadUint64(f.value);
          msg := msg.(timestamp := Some(x));
        case 48 =>
          var e :- ReadEnum(f.value, CongestionLevelFromI32);
          msg := msg.(congestionLevel := Some(e));
        case 72 =>
          var e :- ReadEnum(f.value, OccupancyStatusFromI32);
          msg := msg.(occupancyStatus := Some(e));
        case _ =>
          if !WellFormed(f) {
            return Err(Unskippable(f.tag));
          }
      }
      i := i + 1;
    }
    r := Ok(msg);
  }

  /** `Alert::from_reader`. */
  method ReadAlert(items: seq<Field>) returns (r: Decoded<Alert>)
    ensures r == DecodeAlert(items)
  {
    var msg := AlertStart();
    var i := 0;
    while i < |items|
      invariant 0 <= i <= |items|
      invariant Fold(AlertStep, msg, items[i..]) == DecodeAlert(items)
    {
      var f := items[i];
      FoldAt(AlertStep, msg, items, i);
      match f.tag {
        case 10 =>
          var raw :- ReadNested(f.value);
          msg := msg.(activePeriod := msg.activePeriod + [raw]);
        case 42 =>
          var raw :- ReadNested(f.value);
          msg := msg.(informedEntity := msg.informedEntity + [raw]);
        case 48 =>
          var e :- ReadEnum(f.value, CauseFromI32);
          msg := msg.(cause := e);
        case 56 =>
          var e :- ReadEnum(f.value, EffectFromI32);
          msg := msg.(effect := e);
        case 66 =>
          var raw :- ReadNested(f.value);
          msg := msg.(url := Some(raw));
        case 82 =>
          var raw :- ReadNested(f.value);
          msg := msg.(headerText := Some(raw));
        case 90 =>
          var raw :- ReadNested(f.value);
          msg := msg.(descriptionText := Some(raw));
        case _ =>
          if !WellFormed(f) {
            return Err(Unskippable(f.tag));
          }
      }
      i := i + 1;
    }
    r := Ok(msg);
  }

  /** `FeedEntity::from_reader`. */
  method ReadFeedEntity(items: seq<Field>) returns (r: Decoded<FeedEntity>)
    ensures r == DecodeFeedEntity(items)
  {
    var msg := FeedEntityStart();
    var i := 0;
    while i < |items|
      invariant 0 <= i <= |items|
      invariant Fold(FeedEntityStep, msg, items[i..]) == DecodeFeedEntity(items)
    {
      var f := items[i];
      FoldAt(FeedEntityStep, msg, items, i);
      match f.tag {
        case 10 =>
          var s :- ReadString(f.value);
          msg := msg.(id := s);
        case 16 =>
          var b :- ReadBool(f.value);
          msg := msg.(isDeleted := b);
        case 26 =>
          var raw :- ReadNested(f.value);
          msg := msg.(tripUpdate := Some(raw));
        case 34 =>
          var inner :- ReadNested(f.value);
          var v :- ReadVehiclePosition(inner);
          msg := msg.(vehicle := Some(v));
        case 42 =>
          var inner :- ReadNested(f.value);
          var a :- ReadAlert(inner);
          msg := msg.(alert := Some(a));
        case _ =>
          if !WellFormed(f) {
            return Err(Unskippable(f.tag));
          }
      }
      i := i + 1;
    }
    r := Ok(msg);
  }

  /** `FeedHeader::from_reader`. */
  method ReadFeedHeader(items: seq<Field>) returns (r: Decoded<FeedHeader>)
    ensures r == DecodeFeedHeader(items)
  {
    var msg := FeedHeaderStart();
    var i := 0;
    while i < |items|
      invariant 0 <= i <= |items|
      invariant Fold(FeedHeaderStep, msg, items[i..]) == DecodeFeedHeader(items)
    {
      var f := items[i];
      FoldAt(FeedHeaderStep, msg, items, i);
      match f.tag {
        case 10 =>
          var s :- ReadString(f.value);
          msg := msg.(gtfsRealtimeVersion := s);
        case 16 =>
          var e :- ReadEnum(f.value, IncrementalityFromI32);
          msg := msg.(incrementality := e);
        case 24 =>
          var x :- ReadUint64(f.value);
          msg := msg.(timestamp := Some(x));
        case _ =>
          if !WellFormed(f) {
            return Err(Unskippable(f.tag));
          }
      }
      i := i + 1;
    }
    r := Ok(msg);
  }

  /** `FeedMessage::from_reader`. */
  method ReadFeedMessage(items: seq<Field>) returns (r: Decoded<FeedMessage>)
    ensures r == DecodeFeedMessage(items)
  {
    var msg := FeedMessageStart();
    var i := 0;
    while i < |items|
      invariant 0 <= i <= |items|
      invariant Fold(FeedMessageStep, msg, items[i..]) == DecodeFeedMessage(items)
    {
      var f := items[i];
      FoldAt(FeedMessageStep, msg, items, i);
      match f.tag {
        case 10 =>
          var inner :- ReadNested(f.value);
          var h :- ReadFeedHeader(inner);
          msg := msg.(header := h);
        case 18 =>
          var inner :- ReadNested(f.value);
          var e :- ReadFeedEntity(inner);
          msg := msg.(entity := msg.entity + [e]);
        case _ =>
          if !WellFormed(f) {
            return Err(Unskippable(f.tag));
          }
      }
      i := i + 1;
    }
    r := Ok(msg);
  }
}
