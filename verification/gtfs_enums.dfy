/**
 * The enumerations of the GTFS Realtime schema with their conversions:
 * the discriminant each variant is written as, `From<i32>` (what `read_enum`
 * applies), `From<&str>`, and `Default`.  Every conversion is total: an
 * undeclared integer or an unknown name falls back to the enum's `Default`.
 */
module RealtimeEnums {
  import opened GtfsWire

  // ---- FeedHeader.Incrementality ----

  datatype Incrementality =
    | FULL_DATASET
    | DIFFERENTIAL

  /** The declared discriminant, `as i32`. */
  function IncrementalityToI32(e: Incrementality): (r: i32)
    ensures 0 <= r <= 1
  {
    match e
    case FULL_DATASET => 0
    case DIFFERENTIAL => 1
  }

  /** The variant's name as written in the schema. */
  function IncrementalityName(e: Incrementality): string {
    match e
    case FULL_DATASET => "FULL_DATASET"
    case DIFFERENTIAL => "DIFFERENTIAL"
  }

  function IncrementalityDefault(): Incrementality {
    FULL_DATASET
  }

  const IncrementalityNames: set<string> := {"FULL_DATASET", "DIFFERENTIAL"}

  /** `From<i32>`: a declared discriminant gives its variant, anything else the default. */
  function IncrementalityFromI32(i: i32): (r: Incrementality)
    ensures 0 <= i <= 1 ==> IncrementalityToI32(r) == i
    ensures !(0 <= i <= 1) ==> r == IncrementalityDefault()
  {
    match i
    case 0 => FULL_DATASET
    case 1 => DIFFERENTIAL
    case _ => IncrementalityDefault()
  }

  /** `From<&str>`: a variant's exact name gives that variant, anything else the default. */
  function IncrementalityFromStr(s: string): (r: Incrementality)
    ensures s in IncrementalityNames ==> IncrementalityName(r) == s
    ensures s !in IncrementalityNames ==> r == IncrementalityDefault()
  {
    if s == "FULL_DATASET" then FULL_DATASET else
    if s == "DIFFERENTIAL" then DIFFERENTIAL else
    IncrementalityDefault()
  }

  lemma IncrementalityRoundTrips(e: Incrementality)
    ensures IncrementalityFromI32(IncrementalityToI32(e)) == e
    ensures IncrementalityFromStr(IncrementalityName(e)) == e
  {
  }

  // ---- VehiclePosition.VehicleStopStatus ----

  datatype VehicleStopStatus =
    | INCOMING_AT
    | STOPPED_AT
    | IN_TRANSIT_TO

  /** The declared discriminant, `as i32`. */
  function VehicleStopStatusToI32(e: VehicleStopStatus): (r: i32)
    ensures 0 <= r <= 2
  {
    match e
    case INCOMING_AT => 0
    case STOPPED_AT => 1
    case IN_TRANSIT_TO => 2
  }

  /** The variant's name as written in the schema. */
  function VehicleStopStatusName(e: VehicleStopStatus): string {
    match e
    case INCOMING_AT => "INCOMING_AT"
    case STOPPED_AT => "STOPPED_AT"
    case IN_TRANSIT_TO => "IN_TRANSIT_TO"
  }

  function VehicleStopStatusDefault(): VehicleStopStatus {
    INCOMING_AT
  }

  const VehicleStopStatusNames: set<string> := {"INCOMING_AT", "STOPPED_AT", "IN_TRANSIT_TO"}

  /** `From<i32>`: a declared discriminant gives its variant, anything else the default. */
  function VehicleStopStatusFromI32(i: i32): (r: VehicleStopStatus)
    ensures 0 <= i <= 2 ==> VehicleStopStatusToI32(r) == i
    ensures !(0 <= i <= 2) ==> r == VehicleStopStatusDefault()
  {
    match i
    case 0 => INCOMING_AT
    case 1 => STOPPED_AT
    case 2 => IN_TRANSIT_TO
    case _ => VehicleStopStatusDefault()
  }

  /** `From<&str>`: a variant's exact name gives that variant, anything else the default. */
  function VehicleStopStatusFromStr(s: string): (r: VehicleStopStatus)
    ensures s in VehicleStopStatusNames ==> VehicleStopStatusName(r) == s
    ensures s !in VehicleStopStatusNames ==> r == VehicleStopStatusDefault()
  {
    if s == "INCOMING_AT" then INCOMING_AT else
    if s == "STOPPED_AT" then STOPPED_AT else
    if s == "IN_TRANSIT_TO" then IN_TRANSIT_TO else
    VehicleStopStatusDefault()
  }

  lemma VehicleStopStatusRoundTrips(e: VehicleStopStatus)
    ensures VehicleStopStatusFromI32(VehicleStopStatusToI32(e)) == e
    ensures VehicleStopStatusFromStr(VehicleStopStatusName(e)) == e
  {
  }

  // ---- VehiclePosition.CongestionLevel ----

  datatype CongestionLevel =
    | UNKNOWN_CONGESTION_LEVEL
    | RUNNING_SMOOTHLY
    | STOP_AND_GO
    | CONGESTION
    | SEVERE_CONGESTION

  /** The declared discriminant, `as i32`. */
  function CongestionLevelToI32(e: CongestionLevel): (r: i32)
    ensures 0 <= r <= 4
  {
    match e
    case UNKNOWN_CONGESTION_LEVEL => 0
    case RUNNING_SMOOTHLY => 1
    case STOP_AND_GO => 2
    case CONGESTION => 3
    case SEVERE_CONGESTION => 4
  }

  /** The variant's name as written in the schema. */
  function CongestionLevelName(e: CongestionLevel): string {
    match e
    case UNKNOWN_CONGESTION_LEVEL => "UNKNOWN_CONGESTION_LEVEL"
    case RUNNING_SMOOTHLY => "RUNNING_SMOOTHLY"
    case STOP_AND_GO => "STOP_AND_GO"
    case CONGESTION => "CONGESTION"
    case SEVERE_CONGESTION => "SEVERE_CONGESTION"
  }

  function CongestionLevelDefault(): CongestionLevel {
    UNKNOWN_CONGESTION_LEVEL
  }

  const CongestionLevelNames: set<string> := {"UNKNOWN_CONGESTION_LEVEL", "RUNNING_SMOOTHLY", "STOP_AND_GO", "CONGESTION", "SEVERE_CONGESTION"}

  /** `From<i32>`: a declared discriminant gives its variant, anything else the default. */
  function CongestionLevelFromI32(i: i32): (r: CongestionLevel)
    ensures 0 <= i <= 4 ==> CongestionLevelToI32(r) == i
    ensures !(0 <= i <= 4) ==> r == CongestionLevelDefault()
  {
    match i
    case 0 => UNKNOWN_CONGESTION_LEVEL
    case 1 => RUNNING_SMOOTHLY
    case 2 => STOP_AND_GO
    case 3 => CONGESTION
    case 4 => SEVERE_CONGESTION
    case _ => CongestionLevelDefault()
  }

  /** `From<&str>`: a variant's exact name gives that variant, anything else the default. */
  function CongestionLevelFromStr(s: string): (r: CongestionLevel)
    ensures s in CongestionLevelNames ==> CongestionLevelName(r) == s
    ensures s !in CongestionLevelNames ==> r == CongestionLevelDefault()
  {
    if s == "UNKNOWN_CONGESTION_LEVEL" then UNKNOWN_CONGESTION_LEVEL else
    if s == "RUNNING_SMOOTHLY" then RUNNING_SMOOTHLY else
    if s == "STOP_AND_GO" then STOP_AND_GO else
    if s == "CONGESTION" then CONGESTION else
    if s == "SEVERE_CONGESTION" then SEVERE_CONGESTION else
    CongestionLevelDefault()
  }

  lemma CongestionLevelRoundTrips(e: CongestionLevel)
    ensures CongestionLevelFromI32(CongestionLevelToI32(e)) == e
    ensures CongestionLevelFromStr(CongestionLevelName(e)) == e
  {
  }

  // ---- VehiclePosition.OccupancyStatus ----

  datatype OccupancyStatus =
    | EMPTY
    | MANY_SEATS_AVAILABLE
    | FEW_SEATS_AVAILABLE
    | STANDING_ROOM_ONLY
    | CRUSHED_STANDING_ROOM_ONLY
    | FULL
    | NOT_ACCEPTING_PASSENGERS

  /** The declared discriminant, `as i32`. */
  function OccupancyStatusToI32(e: OccupancyStatus): (r: i32)
    ensures 0 <= r <= 6
  {
    match e
    case EMPTY => 0
    case MANY_SEATS_AVAILABLE => 1
    case FEW_SEATS_AVAILABLE => 2
    case STANDING_ROOM_ONLY => 3
    case CRUSHED_STANDING_ROOM_ONLY => 4
    case FULL => 5
    case NOT_ACCEPTING_PASSENGERS => 6
  }

  /** The variant's name as written in the schema. */
  function OccupancyStatusName(e: OccupancyStatus): string {
    match e
    case EMPTY => "EMPTY"
    case MANY_SEATS_AVAILABLE => "MANY_SEATS_AVAILABLE"
    case FEW_SEATS_AVAILABLE => "FEW_SEATS_AVAILABLE"
    case STANDING_ROOM_ONLY => "STANDING_ROOM_ONLY"
    case CRUSHED_STANDING_ROOM_ONLY => "CRUSHED_STANDING_ROOM_ONLY"
    case FULL => "FULL"
    case NOT_ACCEPTING_PASSENGERS => "NOT_ACCEPTING_PASSENGERS"
  }

  function OccupancyStatusDefault(): OccupancyStatus {
    EMPTY
  }

  const OccupancyStatusNames: set<string> := {"EMPTY", "MANY_SEATS_AVAILABLE", "FEW_SEATS_AVAILABLE", "STANDING_ROOM_ONLY", "CRUSHED_STANDING_ROOM_ONLY", "FULL", "NOT_ACCEPTING_PASSENGERS"}

  /** `From<i32>`: a declared discriminant gives its variant, anything else the default. */
  function OccupancyStatusFromI32(i: i32): (r: OccupancyStatus)
    ensures 0 <= i <= 6 ==> OccupancyStatusToI32(r) == i
    ensures !(0 <= i <= 6) ==> r == OccupancyStatusDefault()
  {
    match i
    case 0 => EMPTY
    case 1 => MANY_SEATS_AVAILABLE
    case 2 => FEW_SEATS_AVAILABLE
    case 3 => STANDING_ROOM_ONLY
    case 4 => CRUSHED_STANDING_ROOM_ONLY
    case 5 => FULL
    case 6 => NOT_ACCEPTING_PASSENGERS
    case _ => OccupancyStatusDefault()
  }

  /** `From<&str>`: a variant's exact name gives that variant, anything else the default. */
  function OccupancyStatusFromStr(s: string): (r: OccupancyStatus)
    ensures s in OccupancyStatusNames ==> OccupancyStatusName(r) == s
    ensures s !in OccupancyStatusNames ==> r == OccupancyStatusDefault()
  {
    if s == "EMPTY" then EMPTY else
    if s == "MANY_SEATS_AVAILABLE" then MANY_SEATS_AVAILABLE else
    if s == "FEW_SEATS_AVAILABLE" then FEW_SEATS_AVAILABLE else
    if s == "STANDING_ROOM_ONLY" then STANDING_ROOM_ONLY else
    if s == "CRUSHED_STANDING_ROOM_ONLY" then CRUSHED_STANDING_ROOM_ONLY else
    if s == "FULL" then FULL else
    if s == "NOT_ACCEPTING_PASSENGERS" then NOT_ACCEPTING_PASSENGERS else
    OccupancyStatusDefault()
  }

  lemma OccupancyStatusRoundTrips(e: OccupancyStatus)
    ensures OccupancyStatusFromI32(OccupancyStatusToI32(e)) == e
    ensures OccupancyStatusFromStr(OccupancyStatusName(e)) == e
  {
  }

  // ---- Alert.Cause ----

  datatype Cause =
    | UNKNOWN_CAUSE
    | OTHER_CAUSE
    | TECHNICAL_PROBLEM
    | STRIKE
    | DEMONSTRATION
    | ACCIDENT
    | HOLIDAY
    | WEATHER
    | MAINTENANCE
    | CONSTRUCTION
    | POLICE_ACTIVITY
    | MEDICAL_EMERGENCY

  /** The declared discriminant, `as i32`. */
  function CauseToI32(e: Cause): (r: i32)
    ensures 1 <= r <= 12
  {
    match e
    case UNKNOWN_CAUSE => 1
    case OTHER_CAUSE => 2
    case TECHNICAL_PROBLEM => 3
    case STRIKE => 4
    case DEMONSTRATION => 5
    case ACCIDENT => 6
    case HOLIDAY => 7
    case WEATHER => 8
    case MAINTENANCE => 9
    case CONSTRUCTION => 10
    case POLICE_ACTIVITY => 11
    case MEDICAL_EMERGENCY => 12
  }

  /** The variant's name as written in the schema. */
  function CauseName(e: Cause): string {
    match e
    case UNKNOWN_CAUSE => "UNKNOWN_CAUSE"
    case OTHER_CAUSE => "OTHER_CAUSE"
    case TECHNICAL_PROBLEM => "TECHNICAL_PROBLEM"
    case STRIKE => "STRIKE"
    case DEMONSTRATION => "DEMONSTRATION"
    case ACCIDENT => "ACCIDENT"
    case HOLIDAY => "HOLIDAY"
    case WEATHER => "WEATHER"
    case MAINTENANCE => "MAINTENANCE"
    case CONSTRUCTION => "CONSTRUCTION"
    case POLICE_ACTIVITY => "POLICE_ACTIVITY"
    case MEDICAL_EMERGENCY => "MEDICAL_EMERGENCY"
  }

  function CauseDefault(): Cause {
    UNKNOWN_CAUSE
  }

  const CauseNames: set<string> := {"UNKNOWN_CAUSE", "OTHER_CAUSE", "TECHNICAL_PROBLEM", "STRIKE", "DEMONSTRATION", "ACCIDENT", "HOLIDAY", "WEATHER", "MAINTENANCE", "CONSTRUCTION", "POLICE_ACTIVITY", "MEDICAL_EMERGENCY"}

  /** `From<i32>`: a declared discriminant gives its variant, anything else the default. */
  function CauseFromI32(i: i32): (r: Cause)
    ensures 1 <= i <= 12 ==> CauseToI32(r) == i
    ensures !(1 <= i <= 12) ==> r == CauseDefault()
  {
    match i
    case 1 => UNKNOWN_CAUSE
    case 2 => OTHER_CAUSE
    case 3 => TECHNICAL_PROBLEM
    case 4 => STRIKE
    case 5 => DEMONSTRATION
    case 6 => ACCIDENT
    case 7 => HOLIDAY
    case 8 => WEATHER
    case 9 => MAINTENANCE
    case 10 => CONSTRUCTION
    case 11 => POLICE_ACTIVITY
    case 12 => MEDICAL_EMERGENCY
    case _ => CauseDefault()
  }

  /** `From<&str>`: a variant's exact name gives that variant, anything else the default. */
  function CauseFromStr(s: string): (r: Cause)
    ensures s in CauseNames ==> CauseName(r) == s
    ensures s !in CauseNames ==> r == CauseDefault()
  {
    if s == "UNKNOWN_CAUSE" then UNKNOWN_CAUSE else
    if s == "OTHER_CAUSE" then OTHER_CAUSE else
    if s == "TECHNICAL_PROBLEM" then TECHNICAL_PROBLEM else
    if s == "STRIKE" then STRIKE else
    if s == "DEMONSTRATION" then DEMONSTRATION else
    if s == "ACCIDENT" then ACCIDENT else
    if s == "HOLIDAY" then HOLIDAY else
    if s == "WEATHER" then WEATHER else
    if s == "MAINTENANCE" then MAINTENANCE else
    if s == "CONSTRUCTION" then CONSTRUCTION else
    if s == "POLICE_ACTIVITY" then POLICE_ACTIVITY else
    if s == "MEDICAL_EMERGENCY" then MEDICAL_EMERGENCY else
    CauseDefault()
  }

  lemma CauseRoundTrips(e: Cause)
    ensures CauseFromI32(CauseToI32(e)) == e
    ensures CauseFromStr(CauseName(e)) == e
  {
  }

  // ---- Alert.Effect ----

  datatype Effect =
    | NO_SERVICE
    | REDUCED_SERVICE
    | SIGNIFICANT_DELAYS
    | DETOUR
    | ADDITIONAL_SERVICE
    | MODIFIED_SERVICE
    | OTHER_EFFECT
    | UNKNOWN_EFFECT
    | STOP_MOVED

  /** The declared discriminant, `as i32`. */
  function EffectToI32(e: Effect): (r: i32)
    ensures 1 <= r <= 9
  {
    match e
    case NO_SERVICE => 1
    case REDUCED_SERVICE => 2
    case SIGNIFICANT_DELAYS => 3
    case DETOUR => 4
    case ADDITIONAL_SERVICE => 5
    case MODIFIED_SERVICE => 6
    case OTHER_EFFECT => 7
    case UNKNOWN_EFFECT => 8
    case STOP_MOVED => 9
  }

  /** The variant's name as written in the schema. */
  function EffectName(e: Effect): string {
    match e
    case NO_SERVICE => "NO_SERVICE"
    case REDUCED_SERVICE => "REDUCED_SERVICE"
    case SIGNIFICANT_DELAYS => "SIGNIFICANT_DELAYS"
    case DETOUR => "DETOUR"
    case ADDITIONAL_SERVICE => "ADDITIONAL_SERVICE"
    case MODIFIED_SERVICE => "MODIFIED_SERVICE"
    case OTHER_EFFECT => "OTHER_EFFECT"
    case UNKNOWN_EFFECT => "UNKNOWN_EFFECT"
    case STOP_MOVED => "STOP_MOVED"
  }

  function EffectDefault(): Effect {
    NO_SERVICE
  }

  const EffectNames: set<string> := {"NO_SERVICE", "REDUCED_SERVICE", "SIGNIFICANT_DELAYS", "DETOUR", "ADDITIONAL_SERVICE", "MODIFIED_SERVICE", "OTHER_EFFECT", "UNKNOWN_EFFECT", "STOP_MOVED"}

  /** `From<i32>`: a declared discriminant gives its variant, anything else the default. */
  function EffectFromI32(i: i32): (r: Effect)
    ensures 1 <= i <= 9 ==> EffectToI32(r) == i
    ensures !(1 <= i <= 9) ==> r == EffectDefault()
  {
    match i
    case 1 => NO_SERVICE
    case 2 => REDUCED_SERVICE
    case 3 => SIGNIFICANT_DELAYS
    case 4 => DETOUR
    case 5 => ADDITIONAL_SERVICE
    case 6 => MODIFIED_SERVICE
    case 7 => OTHER_EFFECT
    case 8 => UNKNOWN_EFFECT
    case 9 => STOP_MOVED
    case _ => EffectDefault()
  }

  /** `From<&str>`: a variant's exact name gives that variant, anything else the default. */
  function EffectFromStr(s: string): (r: Effect)
    ensures s in EffectNames ==> EffectName(r) == s
    ensures s !in EffectNames ==> r == EffectDefault()
  {
    if s == "NO_SERVICE" then NO_SERVICE else
    if s == "REDUCED_SERVICE" then REDUCED_SERVICE else
    if s == "SIGNIFICANT_DELAYS" then SIGNIFICANT_DELAYS else
    if s == "DETOUR" then DETOUR else
    if s == "ADDITIONAL_SERVICE" then ADDITIONAL_SERVICE else
    if s == "MODIFIED_SERVICE" then MODIFIED_SERVICE else
    if s == "OTHER_EFFECT" then OTHER_EFFECT else
    if s == "UNKNOWN_EFFECT" then UNKNOWN_EFFECT else
    if s == "STOP_MOVED" then STOP_MOVED else
    EffectDefault()
  }

  lemma EffectRoundTrips(e: Effect)
    ensures EffectFromI32(EffectToI32(e)) == e
    ensures EffectFromStr(EffectName(e)) == e
  {
  }

  // ---- TripDescriptor.ScheduleRelationship ----

  datatype ScheduleRelationship =
    | SCHEDULED
    | ADDED
    | UNSCHEDULED
    | CANCELED

  /** The declared discriminant, `as i32`. */
  function ScheduleRelationshipToI32(e: ScheduleRelationship): (r: i32)
    ensures 0 <= r <= 3
  {
    match e
    case SCHEDULED => 0
    case ADDED => 1
    case UNSCHEDULED => 2
    case CANCELED => 3
  }

  /** The variant's name as written in the schema. */
  function ScheduleRelationshipName(e: ScheduleRelationship): string {
    match e
    case SCHEDULED => "SCHEDULED"
    case ADDED => "ADDED"
    case UNSCHEDULED => "UNSCHEDULED"
    case CANCELED => "CANCELED"
  }

  function ScheduleRelationshipDefault(): ScheduleRelationship {
    SCHEDULED
  }

  const ScheduleRelationshipNames: set<string> := {"SCHEDULED", "ADDED", "UNSCHEDULED", "CANCELED"}

  /** `From<i32>`: a declared discriminant gives its variant, anything else the default. */
  function ScheduleRelationshipFromI32(i: i32): (r: ScheduleRelationship)
    ensures 0 <= i <= 3 ==> ScheduleRelationshipToI32(r) == i
    ensures !(0 <= i <= 3) ==> r == ScheduleRelationshipDefault()
  {
    match i
    case 0 => SCHEDULED
    case 1 => ADDED
    case 2 => UNSCHEDULED
    case 3 => CANCELED
    case _ => ScheduleRelationshipDefault()
  }

  /** `From<&str>`: a variant's exact name gives that variant, anything else the default. */
  function ScheduleRelationshipFromStr(s: string): (r: ScheduleRelationship)
    ensures s in ScheduleRelationshipNames ==> ScheduleRelationshipName(r) == s
    ensures s !in ScheduleRelationshipNames ==> r == ScheduleRelationshipDefault()
  {
    if s == "SCHEDULED" then SCHEDULED else
    if s == "ADDED" then ADDED else
    if s == "UNSCHEDULED" then UNSCHEDULED else
    if s == "CANCELED" then CANCELED else
    ScheduleRelationshipDefault()
  }

  lemma ScheduleRelationshipRoundTrips(e: ScheduleRelationship)
    ensures ScheduleRelationshipFromI32(ScheduleRelationshipToI32(e)) == e
    ensures ScheduleRelationshipFromStr(ScheduleRelationshipName(e)) == e
  {
  }

}
