/**
 * The per-person tracker: up to three axis filters built from the
 * configured track dimension, a queue of admitted telemetry messages, and
 * the step that runs the filters on the oldest queued message.
 */
module Localization {
  import opened Wrappers
  import opened Telemetry
  import Axis
  import Equations

  /** One value per axis of a configuration entry. */
  datatype PerAxis = PerAxis(x: real, y: real, z: real)

  /** The "algorithm" section of a tracker's configuration. */
  datatype AlgorithmConfig = AlgorithmConfig(
    trackDimension: int,
    interval: real,
    modelType: string,
    coefficient: PerAxis,          // model.coefficient
    modelError: PerAxis,           // error.model
    measurementError: PerAxis,     // error.measurement
    stateErrorVariance: PerAxis,   // error.state_error_variance
    residual: PerAxis,             // threshold.residual
    adaptive: PerAxis,             // threshold.adaptive
    gamma: PerAxis,                // threshold.gamma
    parameterCount: nat)           // estimator.parameter.count

  /** Why a tracker could not be built; the service exits on either. */
  datatype ConfigError = DimensionNotSupported(dimension: int) | MissingStartCoordinate

  /** A queued message whose fields the filters cannot read; the service exits on it. */
  datatype Fault = MalformedMeasurement

  /** What one update does: nothing (empty queue), emit both records, or stop on a malformed message. */
  datatype UpdateOutcome = Idle | Emitted(plm: Message, visual: Message) | Halted(fault: Fault)

  /** One optional value per axis, None for an axis without a filter. */
  datatype Axes<T> = Axes(x: Option<T>, y: Option<T>, z: Option<T>)
  {
    /** The value of axis i (0 is x, 1 is y, anything else z). */
    function At(i: nat): Option<T>
    {
      if i == 0 then x else if i == 1 then y else z
    }

    /** The values with the one of axis i replaced by v. */
    function With(i: nat, v: Option<T>): (a: Axes<T>)
      ensures a.At(i) == v
      ensures forall j :: j != i && j < 3 && i < 3 ==> a.At(j) == At(j)
    {
      if i == 0 then this.(x := v) else if i == 1 then this.(y := v) else this.(z := v)
    }
  }

  /** Converts an acceleration in g to metres per second squared. */
  function ConvertGToMpss(g: real): real { g * 9.8 }

  /** Axis filter f was built from the given configuration values and has not stepped yet. */
  ghost predicate Seeded(f: Axis.Rakf1D, fit: Axis.Wls, start: real, coefficient: real, modelError: real,
                         measurementError: real, stateErrorVariance: real, residual: real,
                         adaptive: real, gamma: real, config: AlgorithmConfig)
    reads f, f.Repr
    requires f.Valid()
  {
    f.fit == fit && f.stateModel == start && f.systemModel == coefficient && f.systemModelError == modelError
    && f.measurementError == measurementError && f.stateErrorVariance == stateErrorVariance
    && f.residualThreshold == residual && f.adaptiveThreshold == adaptive && f.gamma == gamma
    && f.estimatorParameterCount == config.parameterCount && f.modelType == config.modelType
    && f.Initial()
  }

  class RakfLocalization {
    const id: string
    const trackDimension: int
    const interval: real
    const rakfX: Axis.Rakf1D?
    const rakfY: Axis.Rakf1D?
    const rakfZ: Axis.Rakf1D?
    /** The exchange of each subscriber, in subscription order. */
    const subscriberExchanges: seq<string>
    /** The telemetry queue, oldest first. */
    var queue: seq<Message>
    /** The objects of the axis filters. */
    ghost const FiltersRepr: set<object>

    /** The axis filters match the dimension, are each valid and share no objects. */
    ghost predicate FiltersValid()
    {
      trackDimension <= 3
      && (rakfX != null <==> trackDimension > 0)
      && (rakfY != null <==> trackDimension > 1)
      && (rakfZ != null <==> trackDimension > 2)
      && (rakfX != null ==> rakfX.Valid() && rakfX.Repr <= FiltersRepr)
      && (rakfY != null ==> rakfY.Valid() && rakfY.Repr <= FiltersRepr)
      && (rakfZ != null ==> rakfZ.Valid() && rakfZ.Repr <= FiltersRepr)
      && (rakfX != null && rakfY != null ==> rakfX.Repr !! rakfY.Repr)
      && (rakfX != null && rakfZ != null ==> rakfX.Repr !! rakfZ.Repr)
      && (rakfY != null && rakfZ != null ==> rakfY.Repr !! rakfZ.Repr)
      && this !in FiltersRepr
    }

    /** The filters are valid and every queued message carries the required keys. */
    ghost predicate Valid()
      reads this
    {
      FiltersValid() && AllComplete(queue)
    }

    /** The filters run under "uwb_imu", as the x filter's model type says. */
    predicate Imu()
    {
      rakfX != null && rakfX.IsImu()
    }

    /** The fields one axis reads are numbers. */
    predicate AxisReadable(m: Message, pos: string, vel: string)
    {
      NumAt(m, pos) && NumAt(m, "timestamp") && (Imu() ==> NumAt(m, vel))
    }

    /** Every field the present axes read is a number. */
    predicate Readable(m: Message)
    {
      (trackDimension > 0 ==> AxisReadable(m, "x_uwb_pos", "x_imu_vel"))
      && (trackDimension > 1 ==> AxisReadable(m, "y_uwb_pos", "y_imu_vel"))
      && (trackDimension > 2 ==> AxisReadable(m, "z_uwb_pos", "z_imu_vel"))
    }

    /**
     * The inputs one axis filter is run with: its position and the timestamp,
     * and under "uwb_imu" its velocity and an acceleration of 0 g; otherwise
     * velocity and acceleration 0.
     */
    function SampleOf(m: Message, pos: string, vel: string): (s: Axis.Sample)
      requires AxisReadable(m, pos, vel)
      ensures s.measurement == m[pos].n && s.timestampMs == m["timestamp"].n && s.acceleration == 0.0
      ensures s.velocity == if Imu() then m[vel].n else 0.0
    {
      if Imu() then Axis.Sample(m[pos].n, m["timestamp"].n, m[vel].n, ConvertGToMpss(0.0))
      else Axis.Sample(m[pos].n, m["timestamp"].n, 0.0, 0.0)
    }

    /** The filter of axis i (0 is x, 1 is y, anything else z). */
    function Filter(i: nat): Axis.Rakf1D?
    {
      if i == 0 then rakfX else if i == 1 then rakfY else rakfZ
    }

    /** The message field holding the position of axis i. */
    function PositionKey(i: nat): string
    {
      if i == 0 then "x_uwb_pos" else if i == 1 then "y_uwb_pos" else "z_uwb_pos"
    }

    /** The message field holding the velocity of axis i. */
    function VelocityKey(i: nat): string
    {
      if i == 0 then "x_imu_vel" else if i == 1 then "y_imu_vel" else "z_imu_vel"
    }

    /** The snapshot of each present filter (see Axis.Rakf1D.Snapshot). */
    ghost function Snapshots(): (b: Axes<Axis.Snap>)
      reads FiltersRepr
      requires FiltersValid()
      ensures SnapshotsFit(b)
    {
      Axes(if rakfX == null then None else Some(rakfX.Snapshot()),
           if rakfY == null then None else Some(rakfY.Snapshot()),
           if rakfZ == null then None else Some(rakfZ.Snapshot()))
    }

    /** The intermediate values each present filter holds (see Axis.Rakf1D.Recorded). */
    ghost function Traces(): Axes<Axis.Trace>
      reads FiltersRepr
      requires FiltersValid()
    {
      Axes(if rakfX == null then None else Some(rakfX.Recorded()),
           if rakfY == null then None else Some(rakfY.Recorded()),
           if rakfZ == null then None else Some(rakfZ.Recorded()))
    }

    /** b holds a snapshot with the right window lengths exactly for each present filter. */
    ghost predicate SnapshotsFit(b: Axes<Axis.Snap>)
      requires FiltersValid()
    {
      (rakfX != null <==> b.x.Some?) && (rakfX != null ==> rakfX.Fits(b.x.value))
      && (rakfY != null <==> b.y.Some?) && (rakfY != null ==> rakfY.Fits(b.y.value))
      && (rakfZ != null <==> b.z.Some?) && (rakfZ != null ==> rakfZ.Fits(b.z.value))
    }

    /** From the states b, every present filter can take its step on m. */
    ghost predicate AxesCanStep(m: Message, b: Axes<Axis.Snap>)
      requires FiltersValid() && Readable(m) && SnapshotsFit(b)
    {
      CanStepAt(m, b, 0) && CanStepAt(m, b, 1) && CanStepAt(m, b, 2)
    }

    /** Every present filter can take its step on m. */
    ghost predicate AxesCanRun(m: Message)
      reads FiltersRepr
      requires FiltersValid() && Readable(m)
    {
      AxesCanStep(m, Snapshots())
    }

    /** The inputs axis i is run with on m (see SampleOf). */
    function SampleAt(m: Message, i: nat): Axis.Sample
      requires i < 3 && Readable(m) && trackDimension > i
    {
      SampleOf(m, PositionKey(i), VelocityKey(i))
    }

    /** From its state in b, the filter of axis i, if any, can take its step on m. */
    ghost predicate CanStepAt(m: Message, b: Axes<Axis.Snap>, i: nat)
      requires i < 3 && FiltersValid() && Readable(m) && SnapshotsFit(b)
    {
      Filter(i) != null ==> Filter(i).CanStep(b.At(i).value, SampleAt(m, i))
    }

    /** The state of the filter of axis i, if any, after its step on m from its state in b. */
    ghost function AdvancedAt(m: Message, b: Axes<Axis.Snap>, i: nat): Option<Axis.Snap>
      requires i < 3 && FiltersValid() && Readable(m) && SnapshotsFit(b) && CanStepAt(m, b, i)
    {
      if Filter(i) == null then None else Some(Filter(i).Advance(b.At(i).value, SampleAt(m, i)))
    }

    /** The intermediate values of that step (see Axis.Rakf1D.StepTrace). */
    ghost function TracedAt(m: Message, b: Axes<Axis.Snap>, i: nat): Option<Axis.Trace>
      requires i < 3 && FiltersValid() && Readable(m) && SnapshotsFit(b) && CanStepAt(m, b, i)
    {
      if Filter(i) == null then None else Some(Filter(i).StepTrace(b.At(i).value, SampleAt(m, i)))
    }

    /** The states after every present filter takes its step on m from its state in b. */
    ghost function Advanced(m: Message, b: Axes<Axis.Snap>): Axes<Axis.Snap>
      requires FiltersValid() && Readable(m) && SnapshotsFit(b) && AxesCanStep(m, b)
    {
      Axes(AdvancedAt(m, b, 0), AdvancedAt(m, b, 1), AdvancedAt(m, b, 2))
    }

    /** The intermediate values of those steps. */
    ghost function Traced(m: Message, b: Axes<Axis.Snap>): Axes<Axis.Trace>
      requires FiltersValid() && Readable(m) && SnapshotsFit(b) && AxesCanStep(m, b)
    {
      Axes(TracedAt(m, b, 0), TracedAt(m, b, 1), TracedAt(m, b, 2))
    }

    /** The new state of axis i after its step on m from b, 0 for an axis without a filter. */
    ghost function EstimateOf(m: Message, b: Axes<Axis.Snap>, i: nat): real
      requires i < 3 && FiltersValid() && Readable(m) && SnapshotsFit(b) && CanStepAt(m, b, i)
    {
      var a := AdvancedAt(m, b, i);
      if a.Some? then a.value.stateModel else 0.0
    }

    /**
     * The result of processing m from the filter states b: m annotated with
     * the dimension and the new state of each present filter, 0 for an axis
     * without a filter.
     */
    ghost function Processed(m: Message, b: Axes<Axis.Snap>): Message
      requires FiltersValid() && Readable(m) && SnapshotsFit(b) && AxesCanStep(m, b)
    {
      Annotate(m, trackDimension, EstimateOf(m, b, 0), EstimateOf(m, b, 1), EstimateOf(m, b, 2))
    }

    /**
     * Every present filter took its step on m from its state in b: its
     * fields and windows are the advanced ones and its intermediate fields
     * hold that step's values.
     */
    ghost predicate AxesStepped(m: Message, b: Axes<Axis.Snap>)
      reads FiltersRepr
      requires FiltersValid() && Readable(m) && SnapshotsFit(b) && AxesCanStep(m, b)
    {
      Snapshots() == Advanced(m, b) && Traces() == Traced(m, b)
    }

    /** The tracker stepped on m exactly when each present filter did (see Axis.Rakf1D.Stepped). */
    lemma AxesSteppedEach(m: Message, b: Axes<Axis.Snap>)
      requires FiltersValid() && Readable(m) && SnapshotsFit(b) && AxesCanStep(m, b)
      ensures AxesStepped(m, b) <==>
        (rakfX != null ==> rakfX.Stepped(b.x.value, SampleAt(m, 0)))
        && (rakfY != null ==> rakfY.Stepped(b.y.value, SampleAt(m, 1)))
        && (rakfZ != null ==> rakfZ.Stepped(b.z.value, SampleAt(m, 2)))
    {
    }

    /** Every present filter is tuned in the states b (see Axis.Rakf1D.TunedAt). */
    ghost predicate StatesTuned(b: Axes<Axis.Snap>)
      requires FiltersValid() && SnapshotsFit(b)
    {
      (rakfX != null ==> rakfX.TunedAt(b.x.value))
      && (rakfY != null ==> rakfY.TunedAt(b.y.value))
      && (rakfZ != null ==> rakfZ.TunedAt(b.z.value))
    }

    /** Every present filter is tuned now. */
    ghost predicate FiltersTuned()
      reads FiltersRepr
      requires FiltersValid()
    {
      StatesTuned(Snapshots())
    }

    /**
     * Tuned filters can take their step on every readable message, and are
     * tuned again afterwards.
     */
    lemma TunedAxesStep(m: Message, b: Axes<Axis.Snap>)
      requires FiltersValid() && Readable(m) && SnapshotsFit(b) && StatesTuned(b)
      ensures AxesCanStep(m, b) && StatesTuned(Advanced(m, b))
    {
      if rakfX != null { rakfX.TunedStep(b.x.value, SampleOf(m, "x_uwb_pos", "x_imu_vel")); }
      if rakfY != null { rakfY.TunedStep(b.y.value, SampleOf(m, "y_uwb_pos", "y_imu_vel")); }
      if rakfZ != null { rakfZ.TunedStep(b.z.value, SampleOf(m, "z_uwb_pos", "z_imu_vel")); }
    }

    /**
     * Builds the axis filters for a valid dimension: x, y and z exist exactly
     * when the dimension exceeds 0, 1 and 2, each seeded with its start
     * coordinate and its own axis' entries, except that all three take the
     * measurement error of the x entry.
     */
    constructor (fit: Axis.Wls, id: string, config: AlgorithmConfig, startCoordinates: seq<real>, sigma: real,
                 subscriberExchanges: seq<string>)
      requires config.trackDimension <= 3 && |startCoordinates| >= config.trackDimension
      requires config.trackDimension > 0 ==> sigma > 0.0 && sigma * sigma == config.measurementError.x
      ensures Valid() && fresh(FiltersRepr)
      ensures this.id == id && trackDimension == config.trackDimension && interval == config.interval
      ensures this.subscriberExchanges == subscriberExchanges && queue == []
      ensures rakfX != null ==>
        Seeded(rakfX, fit, startCoordinates[0], config.coefficient.x, config.modelError.x, config.measurementError.x,
               config.stateErrorVariance.x, config.residual.x, config.adaptive.x, config.gamma.x, config)
      ensures rakfY != null ==>
        Seeded(rakfY, fit, startCoordinates[1], config.coefficient.y, config.modelError.y, config.measurementError.x,
               config.stateErrorVariance.y, config.residual.y, config.adaptive.y, config.gamma.y, config)
      ensures rakfZ != null ==>
        Seeded(rakfZ, fit, startCoordinates[2], config.coefficient.z, config.modelError.z, config.measurementError.x,
               config.stateErrorVariance.z, config.residual.z, config.adaptive.z, config.gamma.z, config)
    {
      this.id := id;
      trackDimension := config.trackDimension;
      interval := config.interval;
      this.subscriberExchanges := subscriberExchanges;
      queue := [];
      var x: Axis.Rakf1D? := null;
      var y: Axis.Rakf1D? := null;
      var z: Axis.Rakf1D? := null;
      ghost var repr: set<object> := {};
      if config.trackDimension > 0 {
        x := new Axis.Rakf1D(fit, startCoordinates[0], config.coefficient.x, config.modelError.x,
                             config.measurementError.x, sigma, config.stateErrorVariance.x,
                             config.residual.x, config.adaptive.x, config.parameterCount,
                             config.gamma.x, config.modelType);
        repr := repr + x.Repr;
      }
      if config.trackDimension > 1 {
        y := new Axis.Rakf1D(fit, startCoordinates[1], config.coefficient.y, config.modelError.y,
                             config.measurementError.x, sigma, config.stateErrorVariance.y,
                             config.residual.y, config.adaptive.y, config.parameterCount,
                             config.gamma.y, config.modelType);
        repr := repr + y.Repr;
      }
      if config.trackDimension > 2 {
        z := new Axis.Rakf1D(fit, startCoordinates[2], config.coefficient.z, config.modelError.z,
                             config.measurementError.x, sigma, config.stateErrorVariance.z,
                             config.residual.z, config.adaptive.z, config.parameterCount,
                             config.gamma.z, config.modelType);
        repr := repr + z.Repr;
      }
      rakfX, rakfY, rakfZ := x, y, z;
      FiltersRepr := repr;
    }

    /**
     * Runs each present axis filter on the measurement, in x, y, z order, and
     * returns the measurement with the dimension and the three estimates
     * added (0 for an axis without a filter).
     */
    method ProcessMeasurement(measurement: Message) returns (r: Result<Message, Fault>)
      requires FiltersValid()
      requires Readable(measurement) ==> AxesCanRun(measurement)
      modifies FiltersRepr
      ensures FiltersValid()
      ensures !Readable(measurement) ==> r == Failure(MalformedMeasurement) && unchanged(FiltersRepr)
      ensures Readable(measurement) ==>
        r == Success(Processed(measurement, old(Snapshots()))) && AxesStepped(measurement, old(Snapshots()))
    {
      if !Readable(measurement) {
        return Failure(MalformedMeasurement);
      }
      ghost var b := Snapshots();
      var posEstX := RunAxis(0, measurement, b);
      var posEstY := RunAxis(1, measurement, b);
      var posEstZ := RunAxis(2, measurement, b);
      r := Success(Annotate(measurement, trackDimension, posEstX, posEstY, posEstZ));
    }

    /**
     * Runs the filter of axis i on that axis' fields of m when the axis is
     * tracked and has a filter, and returns its new state; returns 0
     * otherwise. b holds the states before any axis ran; this axis has not
     * moved since.
     */
    method RunAxis(i: nat, m: Message, ghost b: Axes<Axis.Snap>) returns (estimate: real)
      requires i < 3 && FiltersValid() && Readable(m) && SnapshotsFit(b) && CanStepAt(m, b, i)
      requires Filter(i) != null ==> Filter(i).Snapshot() == b.At(i).value
      modifies if Filter(i) != null then Filter(i).Repr else {}
      ensures FiltersValid()
      ensures Snapshots() == old(Snapshots()).With(i, AdvancedAt(m, b, i))
      ensures Traces() == old(Traces()).With(i, TracedAt(m, b, i))
      ensures estimate == EstimateOf(m, b, i)
    {
      estimate := 0.0;
      var f := Filter(i);
      if trackDimension > i && f != null {
        ghost var s := SampleAt(m, i);
        assert f.CanStep(b.At(i).value, s);
        estimate := RunFilter(f, m, PositionKey(i), VelocityKey(i));
        assert f.Snapshot() == f.Advance(b.At(i).value, s);
      }
    }

    /**
     * Runs filter f on the fields pos and vel of m. Under "uwb_imu" (as the
     * x filter says) the filter also gets the velocity and an acceleration
     * of 0 g.
     */
    method RunFilter(f: Axis.Rakf1D, m: Message, pos: string, vel: string) returns (estimate: real)
      requires f.Valid() && AxisReadable(m, pos, vel) && f.CanRun(SampleOf(m, pos, vel))
      modifies f.Repr
      ensures f.Valid() && f.Stepped(old(f.Snapshot()), SampleOf(m, pos, vel)) && estimate == f.stateModel
    {
      if Imu() {
        estimate := f.Run(m[pos].n, m["timestamp"].n, m[vel].n, ConvertGToMpss(0.0));
      } else {
        estimate := f.Run(m[pos].n, m["timestamp"].n);
      }
    }

    /**
     * Handles one delivered message: for every subscriber on exchangeName,
     * queues the message if it is admissible for this tracker.
     */
    method ConsumeTelemetryMsg(exchangeName: string, bindingName: string, messageBody: Message)
      requires Valid()
      modifies this
      ensures Valid()
      ensures queue == old(queue) + Admitted(subscriberExchanges, exchangeName, bindingName, messageBody, id)
    {
      var i := 0;
      while i < |subscriberExchanges|
        invariant 0 <= i <= |subscriberExchanges|
        invariant queue == old(queue) + Admitted(subscriberExchanges[..i], exchangeName, bindingName, messageBody, id)
      {
        AdmittedStep(subscriberExchanges, i, exchangeName, bindingName, messageBody, id);
        if subscriberExchanges[i] == exchangeName && Admissible(bindingName, messageBody, id) {
          queue := queue + [messageBody];
        }
        i := i + 1;
      }
      assert subscriberExchanges[..i] == subscriberExchanges;
      AdmittedAreComplete(subscriberExchanges, exchangeName, bindingName, messageBody, id);
      AllCompleteAppend(old(queue), Admitted(subscriberExchanges, exchangeName, bindingName, messageBody, id));
    }

    /** Removes and returns the oldest queued message. */
    method Dequeue() returns (m: Message)
      requires Valid() && queue != []
      modifies this`queue
      ensures Valid()
      ensures m == old(queue)[0] && queue == old(queue)[1..] && Complete(m)
    {
      m := queue[0];
      queue := queue[1..];
    }

    /**
     * Takes the oldest queued message, if any, runs the filters on it and
     * returns the two records the service publishes: the position record and
     * the full result.
     */
    method Update() returns (out: UpdateOutcome)
      requires Valid()
      requires queue != [] && Readable(queue[0]) ==> AxesCanRun(queue[0])
      modifies this, FiltersRepr
      ensures Valid()
      ensures old(queue) == [] ==> out == Idle && queue == [] && unchanged(FiltersRepr)
      ensures old(queue) != [] ==> queue == old(queue)[1..] && !out.Idle?
      ensures old(queue) != [] ==> (out.Halted? <==> !Readable(old(queue)[0]))
      ensures out.Emitted? ==>
        old(queue) != [] && Readable(old(queue)[0])
        && var b := old(Snapshots());
        out.visual == Processed(old(queue)[0], b) && out.plm == PlmRecord(out.visual)
        && AxesStepped(old(queue)[0], b)
      ensures old(FiltersTuned()) ==> FiltersTuned()
    {
      if queue == [] {
        return Idle;
      }
      // The filters run on the head before it is dropped from the queue; the
      // order is not observable, since a failed run ends the service.
      var measurement := queue[0];
      ghost var expected := if Readable(measurement) then Processed(measurement, Snapshots()) else map[];
      if Readable(measurement) && FiltersTuned() {
        TunedAxesStep(measurement, Snapshots());
      }
      var result := ProcessMeasurement(measurement);
      var _ := Dequeue();
      if result.Failure? {
        out := Halted(result.error);
      } else {
        assert result.value == expected;
        out := Emitted(PlmRecord(result.value), result.value);
      }
    }
  }

  /**
   * Builds a tracker, or reports why the service would exit instead: a
   * dimension above 3 is rejected before any filter is built, and a missing
   * start coordinate for a tracked axis stops construction too.
   */
  method Create(fit: Axis.Wls, id: string, config: AlgorithmConfig, startCoordinates: seq<real>, sigma: real,
                subscriberExchanges: seq<string>)
    returns (r: Result<RakfLocalization, ConfigError>)
    requires config.trackDimension > 0 ==> sigma > 0.0 && sigma * sigma == config.measurementError.x
    ensures config.trackDimension > 3 <==> r == Failure(DimensionNotSupported(config.trackDimension))
    ensures config.trackDimension <= 3 && |startCoordinates| < config.trackDimension <==>
      r == Failure(MissingStartCoordinate)
    ensures r.Success? <==> config.trackDimension <= 3 && |startCoordinates| >= config.trackDimension
    ensures r.Success? ==>
      fresh(r.value) && r.value.Valid() && fresh(r.value.FiltersRepr)
      && r.value.trackDimension == config.trackDimension && r.value.id == id && r.value.queue == []
      && r.value.subscriberExchanges == subscriberExchanges
    ensures r.Success? ==>
      var x, y, z := r.value.rakfX, r.value.rakfY, r.value.rakfZ;
      r.value.FiltersValid()
      && (x != null ==>
            Seeded(x, fit, startCoordinates[0], config.coefficient.x, config.modelError.x, config.measurementError.x,
                   config.stateErrorVariance.x, config.residual.x, config.adaptive.x, config.gamma.x, config))
      && (y != null ==>
            Seeded(y, fit, startCoordinates[1], config.coefficient.y, config.modelError.y, config.measurementError.x,
                   config.stateErrorVariance.y, config.residual.y, config.adaptive.y, config.gamma.y, config))
      && (z != null ==>
            Seeded(z, fit, startCoordinates[2], config.coefficient.z, config.modelError.z, config.measurementError.x,
                   config.stateErrorVariance.z, config.residual.z, config.adaptive.z, config.gamma.z, config))
  {
    if config.trackDimension > 3 {
      return Failure(DimensionNotSupported(config.trackDimension));
    }
    if |startCoordinates| < config.trackDimension {
      return Failure(MissingStartCoordinate);
    }
    var tracker := new RakfLocalization(fit, id, config, startCoordinates, sigma, subscriberExchanges);
    r := Success(tracker);
  }
}
