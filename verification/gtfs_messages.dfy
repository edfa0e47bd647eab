/**
 * The GTFS Realtime messages the server reads: their records, the value each
 * decoder starts from, the per-item step of each decoder (one arm per tag of
 * the `match r.next_tag(bytes)` in `from_reader`), the item list each
 * `write_message` produces, and each `get_size`.
 *
 * TripUpdate, TimeRange, EntitySelector and TranslatedString are embedded
 * messages that this model keeps undecoded, as their item lists (RawMessage).
 */
module RealtimeMessages {
  import opened Wrappers
  import opened GtfsWire
  import opened RealtimeEnums

  type RawMessage = seq<Field>

  /** `read_enum`: an int32 varint, converted with the enum's `From<i32>`. */
  function ReadEnum<E>(v: WireValue, from: i32 -> E): Decoded<E> {
    var i :- ReadInt32(v);
    Ok(from(i))
  }

  // ======================= Position =======================

  datatype Position = Position(
    latitude: F32,
    longitude: F32,
    bearing: Option<F32>,
    odometer: Option<F64>,
    speed: Option<F32>)

  /** `Position::default()`, where `from_reader` starts. */
  function PositionStart(): Position {
    Position(0, 0, None, None, None)
  }

  function PositionStep(m: Position, f: Field): Decoded<Position> {
    match f.tag
    case 13 => var x :- ReadFloat(f.value); Ok(m.(latitude := x))
    case 21 => var x :- ReadFloat(f.value); Ok(m.(longitude := x))
    case 29 => var x :- ReadFloat(f.value); Ok(m.(bearing := Some(x)))
    case 33 => var x :- ReadDouble(f.value); Ok(m.(odometer := Some(x)))
    case 45 => var x :- ReadFloat(f.value); Ok(m.(speed := Some(x)))
    case _ => SkipUnknown(m, f)
  }

  function DecodePosition(items: seq<Field>): Decoded<Position> {
    Fold(PositionStep, PositionStart(), items)
  }

  function EncodePosition(p: Position): seq<Field> {
    [Field(13, WriteFloat(p.latitude))] +
    ([Field(21, WriteFloat(p.longitude))] +
    (Emit(p.bearing, 29, WriteFloat) +
    (Emit(p.odometer, 33, WriteDouble) +
    (Emit(p.speed, 45, WriteFloat) + []))))
  }

  /** `get_size`: latitude and longitude are always written, as fixed 4-byte floats. */
  function PositionSize(p: Position): nat {
    (1 + 4) + (1 + 4)
    + OptSize(p.bearing, _ => 1 + 4)
    + OptSize(p.odometer, _ => 1 + 8)
    + OptSize(p.speed, _ => 1 + 4)
  }

  // ======================= VehicleDescriptor =======================

  datatype VehicleDescriptor = VehicleDescriptor(
    id: Option<string>,
    vehicleLabel: Option<string>,
    licensePlate: Option<string>)

  function VehicleDescriptorStart(): VehicleDescriptor {
    VehicleDescriptor(None, None, None)
  }

  function VehicleDescriptorStep(m: VehicleDescriptor, f: Field): Decoded<VehicleDescriptor> {
    match f.tag
    case 10 => var s :- ReadString(f.value); Ok(m.(id := Some(s)))
    case 18 => var s :- ReadString(f.value); Ok(m.(vehicleLabel := Some(s)))
    case 26 => var s :- ReadString(f.value); Ok(m.(licensePlate := Some(s)))
    case _ => SkipUnknown(m, f)
  }

  function DecodeVehicleDescriptor(items: seq<Field>): Decoded<VehicleDescriptor> {
    Fold(VehicleDescriptorStep, VehicleDescriptorStart(), items)
  }

  function EncodeVehicleDescriptor(d: VehicleDescriptor): seq<Field> {
    Emit(d.id, 10, WriteString) +
    (Emit(d.vehicleLabel, 18, WriteString) +
    (Emit(d.licensePlate, 26, WriteString) + []))
  }

  function StringItemSize(s: string): nat {
    1 + SizeOfLen(Utf8Len(s))
  }

  function VehicleDescriptorSize(d: VehicleDescriptor): nat {
    OptSize(d.id, StringItemSize)
    + OptSize(d.vehicleLabel, StringItemSize)
    + OptSize(d.licensePlate, StringItemSize)
  }

  // ======================= TripDescriptor =======================

  datatype TripDescriptor = TripDescriptor(
    tripId: Option<string>,
    routeId: Option<string>,
    directionId: Option<u32>,
    startTime: Option<string>,
    startDate: Option<string>,
    scheduleRelationship: Option<ScheduleRelationship>)

  function TripDescriptorStart(): TripDescriptor {
    TripDescriptor(None, None, None, None, None, None)
  }

  function TripDescriptorStep(m: TripDescriptor, f: Field): Decoded<TripDescriptor> {
    match f.tag
    case 10 => var s :- ReadString(f.value); Ok(m.(tripId := Some(s)))
    case 42 => var s :- ReadString(f.value); Ok(m.(routeId := Some(s)))
    case 48 => var x :- ReadUint32(f.value); Ok(m.(directionId := Some(x)))
    case 18 => var s :- ReadString(f.value); Ok(m.(startTime := Some(s)))
    case 26 => var s :- ReadString(f.value); Ok(m.(startDate := Some(s)))
    case 32 => var e :- ReadEnum(f.value, ScheduleRelationshipFromI32); Ok(m.(scheduleRelationship := Some(e)))
    case _ => SkipUnknown(m, f)
  }

  function DecodeTripDescriptor(items: seq<Field>): Decoded<TripDescriptor> {
    Fold(TripDescriptorStep, TripDescriptorStart(), items)
  }

  function WriteScheduleRelationship(e: ScheduleRelationship): WireValue {
    WriteInt32(ScheduleRelationshipToI32(e))
  }

  function EncodeTripDescriptor(t: TripDescriptor): seq<Field> {
    Emit(t.tripId, 10, WriteString) +
    (Emit(t.routeId, 42, WriteString) +
    (Emit(t.directionId, 48, WriteUint32) +
    (Emit(t.startTime, 18, WriteString) +
    (Emit(t.startDate, 26, WriteString) +
    (Emit(t.scheduleRelationship, 32, WriteScheduleRelationship) + [])))))
  }

  function TripDescriptorSize(t: TripDescriptor): nat {
    OptSize(t.tripId, StringItemSize)
    + OptSize(t.routeId, StringItemSize)
    + OptSize(t.directionId, (x: u32) => 1 + SizeOfVarint(x))
    + OptSize(t.startTime, StringItemSize)
    + OptSize(t.startDate, StringItemSize)
    + OptSize(t.scheduleRelationship, (e: ScheduleRelationship) => 1 + SizeOfVarint(ScheduleRelationshipToI32(e)))
  }

  // ======================= VehiclePosition =======================

  datatype VehiclePosition = VehiclePosition(
    trip: Option<TripDescriptor>,
    vehicle: Option<VehicleDescriptor>,
    position: Option<Position>,
    currentStopSequence: Option<u32>,
    stopId: Option<string>,
    currentStatus: VehicleStopStatus,
    timestamp: Option<u64>,
    congestionLevel: Option<CongestionLevel>,
    occupancyStatus: Option<OccupancyStatus>)

  /** The derived `VehiclePosition::default()`. */
  function VehiclePositionDefault(): VehiclePosition {
    VehiclePosition(None, None, None, None, None, VehicleStopStatusDefault(), None, None, None)
  }

  /** Where `from_reader` starts: the default, except that the status is IN_TRANSIT_TO. */
  function VehiclePositionStart(): VehiclePosition {
    VehiclePositionDefault().(currentStatus := IN_TRANSIT_TO)
  }

  function VehiclePositionStep(m: VehiclePosition, f: Field): Decoded<VehiclePosition> {
    match f.tag
    case 10 =>
      var items :- ReadNested(f.value);
      var t :- DecodeTripDescriptor(items);
      Ok(m.(trip := Some(t)))
    case 66 =>
      var items :- ReadNested(f.value);
      var d :- DecodeVehicleDescriptor(items);
      Ok(m.(vehicle := Some(d)))
    case 18 =>
      var items :- ReadNested(f.value);
      var p :- DecodePosition(items);
      Ok(m.(position := Some(p)))
    case 24 => var x :- ReadUint32(f.value); Ok(m.(currentStopSequence := Some(x)))
    case 58 => var s :- ReadString(f.value); Ok(m.(stopId := Some(s)))
    case 32 => var e :- ReadEnum(f.value, VehicleStopStatusFromI32); Ok(m.(currentStatus := e))
    case 40 => var x :- ReadUint64(f.value); Ok(m.(timestamp := Some(x)))
    case 48 => var e :- ReadEnum(f.value, CongestionLevelFromI32); Ok(m.(congestionLevel := Some(e)))
    case 72 => var e :- ReadEnum(f.value, OccupancyStatusFromI32); Ok(m.(occupancyStatus := Some(e)))
    case _ => SkipUnknown(m, f)
  }

  function DecodeVehiclePosition(items: seq<Field>): Decoded<VehiclePosition> {
    Fold(VehiclePositionStep, VehiclePositionStart(), items)
  }

  function WriteTripDescriptor(t: TripDescriptor): WireValue {
    WriteNested(EncodeTripDescriptor(t))
  }

  function WriteVehicleDescriptor(d: VehicleDescriptor): WireValue {
    WriteNested(EncodeVehicleDescriptor(d))
  }

  function WritePosition(p: Position): WireValue {
    WriteNested(EncodePosition(p))
  }

  function WriteCongestionLevel(e: CongestionLevel): WireValue {
    WriteInt32(CongestionLevelToI32(e))
  }

  function WriteOccupancyStatus(e: OccupancyStatus): WireValue {
    WriteInt32(OccupancyStatusToI32(e))
  }

  function EncodeVehiclePosition(v: VehiclePosition): seq<Field> {
    Emit(v.trip, 10, WriteTripDescriptor) +
    (Emit(v.vehicle, 66, WriteVehicleDescriptor) +
    (Emit(v.position, 18, WritePosition) +
    (Emit(v.currentStopSequence, 24, WriteUint32) +
    (Emit(v.stopId, 58, WriteString) +
    (EmitIf(v.currentStatus != IN_TRANSIT_TO, Field(32, WriteInt32(VehicleStopStatusToI32(v.currentStatus)))) +
    (Emit(v.timestamp, 40, WriteUint64) +
    (Emit(v.congestionLevel, 48, WriteCongestionLevel) +
    (Emit(v.occupancyStatus, 72, WriteOccupancyStatus) + []))))))))
  }

  function VehiclePositionSize(v: VehiclePosition): nat {
    OptSize(v.trip, (t: TripDescriptor) => 1 + SizeOfLen(TripDescriptorSize(t)))
    + OptSize(v.vehicle, (d: VehicleDescriptor) => 1 + SizeOfLen(VehicleDescriptorSize(d)))
    + OptSize(v.position, (p: Position) => 1 + SizeOfLen(PositionSize(p)))
    + OptSize(v.currentStopSequence, (x: u32) => 1 + SizeOfVarint(x))
    + OptSize(v.stopId, StringItemSize)
    + (if v.currentStatus == IN_TRANSIT_TO then 0 else 1 + SizeOfVarint(VehicleStopStatusToI32(v.currentStatus)))
    + OptSize(v.timestamp, (x: u64) => 1 + SizeOfVarint(x))
    + OptSize(v.congestionLevel, (e: CongestionLevel) => 1 + SizeOfVarint(CongestionLevelToI32(e)))
    + OptSize(v.occupancyStatus, (e: OccupancyStatus) => 1 + SizeOfVarint(OccupancyStatusToI32(e)))
  }

  // ======================= Alert =======================

  datatype Alert = Alert(
    activePeriod: seq<RawMessage>,
    informedEntity: seq<RawMessage>,
    cause: Cause,
    effect: Effect,
    url: Option<RawMessage>,
    headerText: Option<RawMessage>,
    descriptionText: Option<RawMessage>)

  /** The derived `Alert::default()`. */
  function AlertDefault(): Alert {
    Alert([], [], CauseDefault(), EffectDefault(), None, None, None)
  }

  /** Where `from_reader` starts: the default, except that the effect is UNKNOWN_EFFECT. */
  function AlertStart(): Alert {
    AlertDefault().(effect := UNKNOWN_EFFECT)
  }

  function AlertStep(m: Alert, f: Field): Decoded<Alert> {
    match f.tag
    case 10 => var raw :- ReadNested(f.value); Ok(m.(activePeriod := m.activePeriod + [raw]))
    case 42 => var raw :- ReadNested(f.value); Ok(m.(informedEntity := m.informedEntity + [raw]))
    case 48 => var e :- ReadEnum(f.value, CauseFromI32); Ok(m.(cause := e))
    case 56 => var e :- ReadEnum(f.value, EffectFromI32); Ok(m.(effect := e))
    case 66 => var raw :- ReadNested(f.value); Ok(m.(url := Some(raw)))
    case 82 => var raw :- ReadNested(f.value); Ok(m.(headerText := Some(raw)))
    case 90 => var raw :- ReadNested(f.value); Ok(m.(descriptionText := Some(raw)))
    case _ => SkipUnknown(m, f)
  }

  function DecodeAlert(items: seq<Field>): Decoded<Alert> {
    Fold(AlertStep, AlertStart(), items)
  }

  function EncodeAlert(a: Alert): seq<Field> {
    Repeated(a.activePeriod, 10, WriteNested) +
    (Repeated(a.informedEntity, 42, WriteNested) +
    (EmitIf(a.cause != UNKNOWN_CAUSE, Field(48, WriteInt32(CauseToI32(a.cause)))) +
    (EmitIf(a.effect != UNKNOWN_EFFECT, Field(56, WriteInt32(EffectToI32(a.effect)))) +
    (Emit(a.url, 66, WriteNested) +
    (Emit(a.headerText, 82, WriteNested) +
    (Emit(a.descriptionText, 90, WriteNested) + []))))))
  }

  function RawItemSize(r: RawMessage): nat {
    1 + SizeOfLen(EncodedSize(r))
  }

  function AlertSize(a: Alert): nat {
    SumSizes(a.activePeriod, RawItemSize)
    + SumSizes(a.informedEntity, RawItemSize)
    + (if a.cause == UNKNOWN_CAUSE then 0 else 1 + SizeOfVarint(CauseToI32(a.cause)))
    + (if a.effect == UNKNOWN_EFFECT then 0 else 1 + SizeOfVarint(EffectToI32(a.effect)))
    + OptSize(a.url, RawItemSize)
    + OptSize(a.headerText, RawItemSize)
    + OptSize(a.descriptionText, RawItemSize)
  }

  // ======================= FeedEntity =======================

  datatype FeedEntity = FeedEntity(
    id: string,
    isDeleted: bool,
    tripUpdate: Option<RawMessage>,
    vehicle: Option<VehiclePosition>,
    alert: Option<Alert>)

  function FeedEntityStart(): FeedEntity {
    FeedEntity("", false, None, None, None)
  }

  function FeedEntityStep(m: FeedEntity, f: Field): Decoded<FeedEntity> {
    match f.tag
    case 10 => var s :- ReadString(f.value); Ok(m.(id := s))
    case 16 => var b :- ReadBool(f.value); Ok(m.(isDeleted := b))
    case 26 => var raw :- ReadNested(f.value); Ok(m.(tripUpdate := Some(raw)))
    case 34 =>
      var items :- ReadNested(f.value);
      var v :- DecodeVehiclePosition(items);
      Ok(m.(vehicle := Some(v)))
    case 42 =>
      var items :- ReadNested(f.value);
      var a :- DecodeAlert(items);
      Ok(m.(alert := Some(a)))
    case _ => SkipUnknown(m, f)
  }

  function DecodeFeedEntity(items: seq<Field>): Decoded<FeedEntity> {
    Fold(FeedEntityStep, FeedEntityStart(), items)
  }

  function WriteVehiclePosition(v: VehiclePosition): WireValue {
    WriteNested(EncodeVehiclePosition(v))
  }

  function WriteAlert(a: Alert): WireValue {
    WriteNested(EncodeAlert(a))
  }

  function EncodeFeedEntity(e: FeedEntity): seq<Field> {
    [Field(10, WriteString(e.id))] +
    (EmitIf(e.isDeleted != false, Field(16, WriteBool(e.isDeleted))) +
    (Emit(e.tripUpdate, 26, WriteNested) +
    (Emit(e.vehicle, 34, WriteVehiclePosition) +
    (Emit(e.alert, 42, WriteAlert) + []))))
  }

  function FeedEntitySize(e: FeedEntity): nat {
    StringItemSize(e.id)
    + (if e.isDeleted == false then 0 else 1 + SizeOfVarint(1))
    + OptSize(e.tripUpdate, RawItemSize)
    + OptSize(e.vehicle, (v: VehiclePosition) => 1 + SizeOfLen(VehiclePositionSize(v)))
    + OptSize(e.alert, (a: Alert) => 1 + SizeOfLen(AlertSize(a)))
  }

  // ======================= FeedHeader =======================

  datatype FeedHeader = FeedHeader(
    gtfsRealtimeVersion: string,
    incrementality: Incrementality,
    timestamp: Option<u64>)

  function FeedHeaderStart(): FeedHeader {
    FeedHeader("", IncrementalityDefault(), None)
  }

  function FeedHeaderStep(m: FeedHeader, f: Field): Decoded<FeedHeader> {
    match f.tag
    case 10 => var s :- ReadString(f.value); Ok(m.(gtfsRealtimeVersion := s))
    case 16 => var e :- ReadEnum(f.value, IncrementalityFromI32); Ok(m.(incrementality := e))
    case 24 => var x :- ReadUint64(f.value); Ok(m.(timestamp := Some(x)))
    case _ => SkipUnknown(m, f)
  }

  function DecodeFeedHeader(items: seq<Field>): Decoded<FeedHeader> {
    Fold(FeedHeaderStep, FeedHeaderStart(), items)
  }

  function EncodeFeedHeader(h: FeedHeader): seq<Field> {
    [Field(10, WriteString(h.gtfsRealtimeVersion))] +
    (EmitIf(h.incrementality != FULL_DATASET, Field(16, WriteInt32(IncrementalityToI32(h.incrementality)))) +
    (Emit(h.timestamp, 24, WriteUint64) + []))
  }

  function FeedHeaderSize(h: FeedHeader): nat {
    StringItemSize(h.gtfsRealtimeVersion)
    + (if h.incrementality == FULL_DATASET then 0 else 1 + SizeOfVarint(IncrementalityToI32(h.incrementality)))
    + OptSize(h.timestamp, (x: u64) => 1 + SizeOfVarint(x))
  }

  // ======================= FeedMessage =======================

  datatype FeedMessage = FeedMessage(header: FeedHeader, entity: seq<FeedEntity>)

  function FeedMessageStart(): FeedMessage {
    FeedMessage(FeedHeaderStart(), [])
  }

  function FeedMessageStep(m: FeedMessage, f: Field): Decoded<FeedMessage> {
    match f.tag
    case 10 =>
      var items :- ReadNested(f.value);
      var h :- DecodeFeedHeader(items);
      Ok(m.(header := h))
    case 18 =>
      var items :- ReadNested(f.value);
      var e :- DecodeFeedEntity(items);
      Ok(m.(entity := m.entity + [e]))
    case _ => SkipUnknown(m, f)
  }

  function DecodeFeedMessage(items: seq<Field>): Decoded<FeedMessage> {
    Fold(FeedMessageStep, FeedMessageStart(), items)
  }

  function WriteFeedHeader(h: FeedHeader): WireValue {
    WriteNested(EncodeFeedHeader(h))
  }

  function WriteFeedEntity(e: FeedEntity): WireValue {
    WriteNested(EncodeFeedEntity(e))
  }

  function EncodeFeedMessage(m: FeedMessage): seq<Field> {
    [Field(10, WriteFeedHeader(m.header))] +
    (Repeated(m.entity, 18, WriteFeedEntity) + [])
  }

  function FeedMessageSize(m: FeedMessage): nat {
    1 + SizeOfLen(FeedHeaderSize(m.header))
    + SumSizes(m.entity, (e: FeedEntity) => 1 + SizeOfLen(FeedEntitySize(e)))
  }
}
