/**
 The dispatch message: a run's plan as the robot is sent it, and its inverse. A stage states its kind
 apart from the payload it carries, and a coverage stage's provenance is not sent.
 */
module MissionWire {
  import opened Wrappers
  import opened Mission

  datatype WireWaypoint =
    | Wgs84Arm(lat: real, lon: real, headingDeg: Option<real>)
    | SiteLocalArm(siteId: UuidText, x: real, y: real, theta: Option<real>)
    | NoWaypointArm

  // The enumerations are open: a sender may state a value the backend does not know.
  datatype WireSegmentKind = SwathKind | TurnKind | OtherSegmentKind(code: int)

  datatype WireStageKind = NavigationKind | CoverageKind | OtherStageKind(code: int)

  datatype WireSegment = WireSegment(kind: WireSegmentKind, geometry: seq<WireWaypoint>)

  datatype Payload = NavigationArm(waypoints: seq<WireWaypoint>) | CoverageArm(segments: seq<WireSegment>) | NoArm

  datatype WireStage = WireStage(stageId: UuidText, kind: WireStageKind, payload: Payload, onCancel: seq<WireStage>)

  datatype WireMission = WireMission(runId: UuidText, stages: seq<WireStage>)

  datatype WireError = MalformedId | NoFrame | NoSegmentKind | KindMismatch | UnsupportedKind | NoProvenance | OutOfBounds

  type Provenances = map<Uuid, CoverageProvenance>

  // ---------- Encoding ----------

  function EncodeWaypoint(w: Waypoint): WireWaypoint {
    match w
    case Wgs84(lat, lon, heading) => Wgs84Arm(lat, lon, heading)
    case SiteLocal(siteId, x, y, theta) => SiteLocalArm(Canonical(siteId), x, y, theta)
  }

  function EncodeWaypoints(ws: seq<Waypoint>): seq<WireWaypoint> {
    if ws == [] then [] else [EncodeWaypoint(ws[0])] + EncodeWaypoints(ws[1..])
  }

  function EncodeSegment(s: Segment): WireSegment {
    WireSegment(if s.kind == Swath then SwathKind else TurnKind, EncodeWaypoints(s.waypoints))
  }

  function EncodeSegments(ss: seq<Segment>): seq<WireSegment> {
    if ss == [] then [] else [EncodeSegment(ss[0])] + EncodeSegments(ss[1..])
  }

  function EncodeStages(stages: seq<Stage>): seq<WireStage>
    decreases Size(stages)
  {
    if stages == [] then []
    else [EncodedStage(stages[0], EncodeStages(Cleanup(stages[0])))] + EncodeStages(stages[1..])
  }

  // A stage with its kind and the matching payload, given its encoded cleanup stages.
  function EncodedStage(stage: Stage, onCancel: seq<WireStage>): WireStage {
    match stage
    case NavigationStage(id, waypoints, _) =>
      WireStage(Canonical(id), NavigationKind, NavigationArm(EncodeWaypoints(waypoints)), onCancel)
    case CoverageStage(id, segments, _, _) =>
      WireStage(Canonical(id), CoverageKind, CoverageArm(EncodeSegments(segments)), onCancel)
  }

  function Encode(runId: Uuid, stages: seq<Stage>): WireMission {
    WireMission(Canonical(runId), EncodeStages(stages))
  }

  // ---------- What goes out ----------

  // The waypoint in the frame it is in, its coordinates in their places.
  predicate SaysWaypoint(wire: WireWaypoint, w: Waypoint) {
    match w
    case Wgs84(lat, lon, heading) => wire.Wgs84Arm? && wire.lat == lat && wire.lon == lon && wire.headingDeg == heading
    case SiteLocal(siteId, x, y, theta) =>
      wire.SiteLocalArm? && wire.siteId == Canonical(siteId) && wire.x == x && wire.y == y && wire.theta == theta
  }

  ghost predicate SaysWaypoints(wires: seq<WireWaypoint>, ws: seq<Waypoint>) {
    |wires| == |ws| && forall i :: 0 <= i < |ws| ==> SaysWaypoint(wires[i], ws[i])
  }

  ghost predicate SaysSegment(wire: WireSegment, s: Segment) {
    && (s.kind == Swath <==> wire.kind == SwathKind) && (s.kind == Turn <==> wire.kind == TurnKind)
    && SaysWaypoints(wire.geometry, s.waypoints)
  }

  ghost predicate SaysStage(wire: WireStage, stage: Stage) {
    && wire.stageId == Canonical(stage.stageId) && |wire.onCancel| == |Cleanup(stage)|
    && match stage
       case NavigationStage(_, waypoints, _) =>
         wire.kind == NavigationKind && wire.payload.NavigationArm? && SaysWaypoints(wire.payload.waypoints, waypoints)
       case CoverageStage(_, segments, _, _) =>
         && wire.kind == CoverageKind && wire.payload.CoverageArm? && |wire.payload.segments| == |segments|
         && forall i :: 0 <= i < |segments| ==> SaysSegment(wire.payload.segments[i], segments[i])
  }

  lemma {:induction false} WaypointsSaid(ws: seq<Waypoint>)
    ensures SaysWaypoints(EncodeWaypoints(ws), ws)
  {
    if ws != [] {
      WaypointsSaid(ws[1..]);
    }
  }

  lemma {:induction false} SegmentsSaid(ss: seq<Segment>)
    ensures |EncodeSegments(ss)| == |ss|
    ensures forall i :: 0 <= i < |ss| ==> SaysSegment(EncodeSegments(ss)[i], ss[i])
  {
    if ss != [] {
      WaypointsSaid(ss[0].waypoints);
      SegmentsSaid(ss[1..]);
    }
  }

  // Each stage of a list goes out as what it is, in its place: by its id, its kind and its geometry.
  lemma {:induction false} StagesSaid(stages: seq<Stage>)
    ensures |EncodeStages(stages)| == |stages|
    ensures forall i :: 0 <= i < |stages| ==> SaysStage(EncodeStages(stages)[i], stages[i])
    decreases Size(stages)
  {
    if stages != [] {
      StagesSaid(Cleanup(stages[0]));
      StagesSaid(stages[1..]);
      match stages[0]
      case NavigationStage(_, waypoints, _) => WaypointsSaid(waypoints);
      case CoverageStage(_, segments, _, _) => SegmentsSaid(segments);
    }
  }

  // ---------- Decoding ----------

  function DecodeId(text: UuidText): Result<Uuid, WireError> {
    if text.NotAnId? then Failure(MalformedId) else Success(text.id)
  }

  // The bounds every waypoint of the backend keeps.
  predicate InBounds(w: Waypoint) {
    w.Wgs84? ==>
      && -90.0 <= w.lat <= 90.0
      && -180.0 <= w.lon <= 180.0
      && (w.headingDeg.Some? ==> 0.0 <= w.headingDeg.value < 360.0)
  }

  function DecodeWaypoint(w: WireWaypoint): Result<Waypoint, WireError> {
    match w
    case Wgs84Arm(lat, lon, heading) =>
      var waypoint := Wgs84(lat, lon, heading);
      if InBounds(waypoint) then Success(waypoint) else Failure(OutOfBounds)
    case SiteLocalArm(siteId, x, y, theta) =>
      var id :- DecodeId(siteId);
      Success(SiteLocal(id, x, y, theta))
    case NoWaypointArm => Failure(NoFrame)
  }

  // A waypoint is refused exactly if its degrees are out of range, its site is not an id, or it has no frame.
  lemma {:induction false} WaypointDecodesIff(w: WireWaypoint)
    ensures DecodeWaypoint(w).Success? <==>
            match w
            case Wgs84Arm(lat, lon, heading) =>
              && -90.0 <= lat <= 90.0 && -180.0 <= lon <= 180.0
              && (heading.Some? ==> 0.0 <= heading.value < 360.0)
            case SiteLocalArm(siteId, _, _, _) => !siteId.NotAnId?
            case NoWaypointArm => false
    ensures DecodeWaypoint(w).Success? && w.Wgs84Arm? ==> SaysWaypoint(w, DecodeWaypoint(w).value)
  {}

  function DecodeWaypoints(ws: seq<WireWaypoint>): Result<seq<Waypoint>, WireError> {
    if ws == [] then Success([])
    else
      var first :- DecodeWaypoint(ws[0]);
      var rest :- DecodeWaypoints(ws[1..]);
      Success([first] + rest)
  }

  function DecodeSegmentKind(kind: WireSegmentKind): Result<SegmentKind, WireError> {
    match kind
    case SwathKind => Success(Swath)
    case TurnKind => Success(Turn)
    case OtherSegmentKind(_) => Failure(NoSegmentKind)
  }

  function DecodeSegment(s: WireSegment): Result<Segment, WireError> {
    var kind :- DecodeSegmentKind(s.kind);
    var waypoints :- DecodeWaypoints(s.geometry);
    if |waypoints| < 2 then Failure(OutOfBounds) else Success(Segment(kind, waypoints))
  }

  function DecodeSegments(ss: seq<WireSegment>): Result<seq<Segment>, WireError> {
    if ss == [] then Success([])
    else
      var first :- DecodeSegment(ss[0]);
      var rest :- DecodeSegments(ss[1..]);
      Success([first] + rest)
  }

  function WireSize(stages: seq<WireStage>): nat
    decreases stages, 0
  {
    if stages == [] then 0 else WireStageSize(stages[0]) + WireSize(stages[1..])
  }

  function WireStageSize(stage: WireStage): (size: nat)
    ensures size == 1 + WireSize(stage.onCancel)
    decreases stage, 1
  {
    1 + WireSize(stage.onCancel)
  }

  // Cleanup stages are decoded first, and without the provenance.
  function DecodeStages(stages: seq<WireStage>, provenance: Provenances): Result<seq<Stage>, WireError>
    decreases WireSize(stages)
  {
    if stages == [] then Success([])
    else
      var onCancel :- DecodeStages(stages[0].onCancel, map[]);
      var first :- DecodedStage(stages[0], onCancel, provenance);
      var rest :- DecodeStages(stages[1..], provenance);
      Success([first] + rest)
  }

  // A stage, given its decoded cleanup stages.
  function DecodedStage(stage: WireStage, onCancel: seq<Stage>, provenance: Provenances): Result<Stage, WireError> {
    match stage.kind
    case NavigationKind =>
      if !stage.payload.NavigationArm? then Failure(KindMismatch)
      else
        var id :- DecodeId(stage.stageId);
        var waypoints :- DecodeWaypoints(stage.payload.waypoints);
        if waypoints == [] then Failure(OutOfBounds)
        else Success(NavigationStage(id, waypoints, ListedUnlessEmpty(onCancel)))
    case CoverageKind =>
      if !stage.payload.CoverageArm? then Failure(KindMismatch)
      else
        var id :- DecodeId(stage.stageId);
        if id !in provenance then Failure(NoProvenance)
        else
          var segments :- DecodeSegments(stage.payload.segments);
          if segments == [] then Failure(OutOfBounds)
          else Success(CoverageStage(id, segments, provenance[id], ListedUnlessEmpty(onCancel)))
    case OtherStageKind(_) => Failure(UnsupportedKind)
  }

  function Decode(mission: WireMission, provenance: Provenances): Result<(Uuid, seq<Stage>), WireError> {
    var id :- DecodeId(mission.runId);
    var stages :- DecodeStages(mission.stages, provenance);
    Success((id, stages))
  }

  // ---------- What comes back ----------

  predicate WaypointsInBounds(ws: seq<Waypoint>) {
    forall i :: 0 <= i < |ws| ==> InBounds(ws[i])
  }

  predicate SegmentOk(s: Segment) {
    |s.waypoints| >= 2 && WaypointsInBounds(s.waypoints)
  }

  predicate SegmentsOk(ss: seq<Segment>) {
    ss == [] || (SegmentOk(ss[0]) && SegmentsOk(ss[1..]))
  }

  // What the backend's own models demand of a stage's payload.
  predicate PayloadOk(stage: Stage) {
    match stage
    case NavigationStage(_, waypoints, _) => waypoints != [] && WaypointsInBounds(waypoints)
    case CoverageStage(_, segments, _, _) => segments != [] && SegmentsOk(segments)
  }

  predicate AllPayloadsOk(stages: seq<Stage>)
    decreases Size(stages)
  {
    stages == [] ||
    (PayloadOk(stages[0]) && AllPayloadsOk(Cleanup(stages[0])) && AllPayloadsOk(stages[1..]))
  }

  predicate NoCoverage(stages: seq<Stage>)
    decreases Size(stages)
  {
    stages == [] ||
    (!stages[0].CoverageStage? && NoCoverage(Cleanup(stages[0])) && NoCoverage(stages[1..]))
  }

  predicate NoCoverageBelowTop(stages: seq<Stage>) {
    forall i :: 0 <= i < |stages| ==> NoCoverage(Cleanup(stages[i]))
  }

  // Each top-level coverage stage's own provenance is supplied alongside.
  predicate ProvenanceSupplied(stages: seq<Stage>, provenance: Provenances) {
    forall i :: 0 <= i < |stages| && stages[i].CoverageStage? ==>
      stages[i].stageId in provenance && provenance[stages[i].stageId] == stages[i].provenance
  }

  lemma {:induction false} WaypointsReturn(ws: seq<Waypoint>)
    ensures DecodeWaypoints(EncodeWaypoints(ws)) == if WaypointsInBounds(ws) then Success(ws) else Failure(OutOfBounds)
  {
    if ws != [] {
      WaypointsReturn(ws[1..]);
      assert ws == [ws[0]] + ws[1..];
    }
  }

  lemma {:induction false} SegmentReturns(s: Segment)
    ensures DecodeSegment(EncodeSegment(s)) == if SegmentOk(s) then Success(s) else Failure(OutOfBounds)
  {
    WaypointsReturn(s.waypoints);
  }

  lemma {:induction false} SegmentsReturn(ss: seq<Segment>)
    ensures DecodeSegments(EncodeSegments(ss)) == if SegmentsOk(ss) then Success(ss) else Failure(OutOfBounds)
  {
    if ss != [] {
      SegmentReturns(ss[0]);
      SegmentsReturn(ss[1..]);
      assert ss == [ss[0]] + ss[1..];
    }
  }

  // ---------- The round trip ----------

  predicate OwnProvenance(stage: Stage, provenance: Provenances) {
    stage.CoverageStage? ==> stage.stageId in provenance && provenance[stage.stageId] == stage.provenance
  }

  // Every payload is one the backend accepts, and every coverage stage's provenance is at hand: the
  // supplied one at the top, none below.
  predicate Returns(stages: seq<Stage>, provenance: Provenances)
    decreases Size(stages)
  {
    stages == [] ||
    (&& PayloadOk(stages[0]) && OwnProvenance(stages[0], provenance)
     && Returns(Cleanup(stages[0]), map[])
     && Returns(stages[1..], provenance))
  }

  lemma {:induction false} StageReturns(stage: Stage, wired: seq<WireStage>, onCancel: seq<Stage>,
                                        provenance: Provenances)
    ensures DecodedStage(EncodedStage(stage, wired), onCancel, provenance) ==
            Success(stage.(onCancel := ListedUnlessEmpty(onCancel))) <==>
            PayloadOk(stage) && OwnProvenance(stage, provenance)
  {
    match stage
    case NavigationStage(_, waypoints, _) => WaypointsReturn(waypoints);
    case CoverageStage(_, segments, _, _) => SegmentsReturn(segments);
  }

  lemma {:induction false} ConsIff<T>(a: T, b: T, s: seq<T>, t: seq<T>)
    ensures [a] + s == [b] + t <==> a == b && s == t
  {
    if [a] + s == [b] + t {
      assert ([a] + s)[0] == ([b] + t)[0] && ([a] + s)[1..] == ([b] + t)[1..];
    }
  }

  lemma {:induction false} KindKept(stage: Stage, wired: seq<WireStage>, onCancel: seq<Stage>, provenance: Provenances)
    ensures var decoded := DecodedStage(EncodedStage(stage, wired), onCancel, provenance);
            decoded.Success? ==> Cleanup(decoded.value) == onCancel && decoded.value.onCancel == ListedUnlessEmpty(onCancel)
  {}

  // A plan comes back from the wire, with empty cleanup lists made absent, exactly when it `Returns`.
  lemma {:induction false} StagesReturnIff(stages: seq<Stage>, provenance: Provenances)
    ensures DecodeStages(EncodeStages(stages), provenance) == Success(Normalised(stages)) <==> Returns(stages, provenance)
    decreases Size(stages)
  {
    if stages != [] {
      var kids, rest := Cleanup(stages[0]), stages[1..];
      StagesReturnIff(kids, map[]);
      StagesReturnIff(rest, provenance);
      var below := DecodeStages(EncodeStages(kids), map[]);
      var first := stages[0].(onCancel := ListedUnlessEmpty(Normalised(kids)));
      if below.Success? {
        var decoded := DecodedStage(EncodedStage(stages[0], EncodeStages(kids)), below.value, provenance);
        var later := DecodeStages(EncodeStages(rest), provenance);
        StageReturns(stages[0], EncodeStages(kids), below.value, provenance);
        KindKept(stages[0], EncodeStages(kids), below.value, provenance);
        if decoded.Success? && later.Success? {
          ConsIff(decoded.value, first, later.value, Normalised(rest));
        }
      }
    }
  }

  lemma {:induction false} ReturnsBelow(stages: seq<Stage>)
    ensures Returns(stages, map[]) <==> AllPayloadsOk(stages) && NoCoverage(stages)
    decreases Size(stages)
  {
    if stages != [] {
      ReturnsBelow(Cleanup(stages[0]));
      ReturnsBelow(stages[1..]);
    }
  }

  lemma {:induction false} ReturnsMeans(stages: seq<Stage>, provenance: Provenances)
    ensures Returns(stages, provenance) <==>
            AllPayloadsOk(stages) && NoCoverageBelowTop(stages) && ProvenanceSupplied(stages, provenance)
    decreases |stages|
  {
    if stages != [] {
      ReturnsBelow(Cleanup(stages[0]));
      ReturnsMeans(stages[1..], provenance);
    }
  }

  // Decoding an encoded run gives back its id and plan, empty cleanup lists made absent, exactly when no
  // coverage stage is below top level, each top-level one's provenance is supplied, and the payloads are
  // ones the backend's models allow.
  lemma {:induction false} RoundTripIff(runId: Uuid, stages: seq<Stage>, provenance: Provenances)
    ensures Decode(Encode(runId, stages), provenance) == Success((runId, Normalised(stages))) <==>
            AllPayloadsOk(stages) && NoCoverageBelowTop(stages) && ProvenanceSupplied(stages, provenance)
  {
    StagesReturnIff(stages, provenance);
    ReturnsMeans(stages, provenance);
  }

  // Whatever provenance is supplied, a plan with coverage below top level never comes back.
  lemma {:induction false} NestedCoverageIsRefused(runId: Uuid, stages: seq<Stage>, provenance: Provenances)
    requires !NoCoverageBelowTop(stages)
    ensures Decode(Encode(runId, stages), provenance).Failure?
  {
    var i :| 0 <= i < |stages| && !NoCoverage(Cleanup(stages[i]));
    RefusedAt(stages, provenance, i);
  }

  lemma {:induction false} RefusedAt(stages: seq<Stage>, provenance: Provenances, i: nat)
    requires i < |stages| && !NoCoverage(Cleanup(stages[i]))
    ensures DecodeStages(EncodeStages(stages), provenance).Failure?
    decreases |stages|
  {
    if i == 0 {
      RefusedBelow(Cleanup(stages[0]));
    } else {
      RefusedAt(stages[1..], provenance, i - 1);
    }
  }

  lemma {:induction false} RefusedBelow(stages: seq<Stage>)
    requires !NoCoverage(stages)
    ensures DecodeStages(EncodeStages(stages), map[]).Failure?
    decreases Size(stages)
  {
    if !NoCoverage(Cleanup(stages[0])) {
      RefusedBelow(Cleanup(stages[0]));
    } else if !stages[0].CoverageStage? {
      RefusedBelow(stages[1..]);
    }
  }

  // ---------- What is accepted ----------

  // The stated kind is the one of the payload.
  predicate Matches(stage: WireStage) {
    || (stage.kind.NavigationKind? && stage.payload.NavigationArm?)
    || (stage.kind.CoverageKind? && stage.payload.CoverageArm?)
  }

  predicate AllMatch(stages: seq<WireStage>)
    decreases WireSize(stages)
  {
    stages == [] || (Matches(stages[0]) && AllMatch(stages[0].onCancel) && AllMatch(stages[1..]))
  }

  // A message with a kind that does not match its payload, at any depth, is refused.
  lemma {:induction false} MismatchIsRefused(stages: seq<WireStage>, provenance: Provenances)
    requires !AllMatch(stages)
    ensures DecodeStages(stages, provenance).Failure?
    decreases WireSize(stages)
  {
    if !AllMatch(stages[0].onCancel) {
      MismatchIsRefused(stages[0].onCancel, map[]);
    } else if Matches(stages[0]) {
      MismatchIsRefused(stages[1..], provenance);
    }
  }

  // The message with every id in its canonical spelling.
  function Respelled(text: UuidText): UuidText {
    if text.NotAnId? then text else Canonical(text.id)
  }

  function RespelledWaypoints(ws: seq<WireWaypoint>): seq<WireWaypoint> {
    if ws == [] then []
    else [if ws[0].SiteLocalArm? then ws[0].(siteId := Respelled(ws[0].siteId)) else ws[0]] + RespelledWaypoints(ws[1..])
  }

  function RespelledSegments(ss: seq<WireSegment>): seq<WireSegment> {
    if ss == [] then []
    else [ss[0].(geometry := RespelledWaypoints(ss[0].geometry))] + RespelledSegments(ss[1..])
  }

  function RespelledPayload(payload: Payload): Payload {
    match payload
    case NavigationArm(waypoints) => NavigationArm(RespelledWaypoints(waypoints))
    case CoverageArm(segments) => CoverageArm(RespelledSegments(segments))
    case NoArm => NoArm
  }

  function RespelledStages(stages: seq<WireStage>): seq<WireStage>
    decreases WireSize(stages)
  {
    if stages == [] then []
    else
      [WireStage(Respelled(stages[0].stageId), stages[0].kind, RespelledPayload(stages[0].payload),
                 RespelledStages(stages[0].onCancel))]
      + RespelledStages(stages[1..])
  }

  lemma {:induction false} WaypointsReencode(ws: seq<WireWaypoint>)
    requires DecodeWaypoints(ws).Success?
    ensures EncodeWaypoints(DecodeWaypoints(ws).value) == RespelledWaypoints(ws)
  {
    if ws != [] {
      WaypointsReencode(ws[1..]);
      var decoded := DecodeWaypoints(ws).value;
      assert decoded[1..] == DecodeWaypoints(ws[1..]).value;
    }
  }

  lemma {:induction false} SegmentsReencode(ss: seq<WireSegment>)
    requires DecodeSegments(ss).Success?
    ensures EncodeSegments(DecodeSegments(ss).value) == RespelledSegments(ss)
  {
    if ss != [] {
      SegmentsReencode(ss[1..]);
      WaypointsReencode(ss[0].geometry);
      var decoded := DecodeSegments(ss).value;
      assert decoded[1..] == DecodeSegments(ss[1..]).value;
    }
  }

  lemma {:induction false} StageReencodes(stage: WireStage, onCancel: seq<Stage>, provenance: Provenances,
                                          wired: seq<WireStage>)
    requires DecodedStage(stage, onCancel, provenance).Success?
    ensures EncodedStage(DecodedStage(stage, onCancel, provenance).value, wired) ==
            WireStage(Respelled(stage.stageId), stage.kind, RespelledPayload(stage.payload), wired)
    ensures Cleanup(DecodedStage(stage, onCancel, provenance).value) == onCancel
  {
    match stage.payload
    case NavigationArm(waypoints) => WaypointsReencode(waypoints);
    case CoverageArm(segments) => SegmentsReencode(segments);
    case NoArm =>
  }

  // An accepted message says nothing but what it was decoded to: encoding that gives the message back,
  // its ids respelled.
  lemma {:induction false} AcceptedReencodes(stages: seq<WireStage>, provenance: Provenances)
    requires DecodeStages(stages, provenance).Success?
    ensures EncodeStages(DecodeStages(stages, provenance).value) == RespelledStages(stages)
    decreases WireSize(stages)
  {
    if stages != [] {
      var below := DecodeStages(stages[0].onCancel, map[]).value;
      var first := DecodedStage(stages[0], below, provenance).value;
      var rest := DecodeStages(stages[1..], provenance).value;
      AcceptedReencodes(stages[0].onCancel, map[]);
      AcceptedReencodes(stages[1..], provenance);
      StageReencodes(stages[0], below, provenance, EncodeStages(below));
      assert ([first] + rest)[1..] == rest;
    }
  }

  lemma {:induction false} AcceptedRunReencodes(mission: WireMission, provenance: Provenances)
    requires Decode(mission, provenance).Success?
    ensures var (runId, stages) := Decode(mission, provenance).value;
            Encode(runId, stages) == WireMission(Respelled(mission.runId), RespelledStages(mission.stages))
    ensures AllMatch(mission.stages)
  {
    AcceptedReencodes(mission.stages, provenance);
    if !AllMatch(mission.stages) {
      MismatchIsRefused(mission.stages, provenance);
    }
  }
}
