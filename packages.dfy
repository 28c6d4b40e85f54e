/**
 Reading a sensor packet: the table from activity code to training variant
 used by `read_package`, the positional binding of the data list to the
 variant's fields, and the arity guard of the driver loop that decides
 which packets are read at all.
 */
module Packages {
  import opened Workouts

  datatype Option<T> = None | Some(value: T)

  /** The three training classes `read_package` can construct. */
  datatype Kind = SwimmingKind | RunningKind | SportsWalkingKind

  /** `possible_values` of `read_package`: activity code to training class. */
  const POSSIBLE_VALUES: map<string, Kind> :=
    map["SWM" := SwimmingKind, "RUN" := RunningKind, "WLK" := SportsWalkingKind]

  /** `available_values` of the driver loop: activity code to expected list length. */
  const AVAILABLE_VALUES: map<string, nat> := map["SWM" := 5, "RUN" := 3, "WLK" := 4]

  /** Number of positional parameters of the class's constructor. */
  function Arity(k: Kind): (n: nat)
    ensures 3 <= n <= 5
    ensures n == 3 <==> k == RunningKind
  {
    match k
    case SwimmingKind => 5
    case RunningKind => 3
    case SportsWalkingKind => 4
  }

  /** The training's class, as it appears among the values of `possible_values`. */
  function KindOf(t: Training): Kind
  {
    match t
    case Swimming(_, _, _, _, _) => SwimmingKind
    case Running(_, _, _) => RunningKind
    case SportsWalking(_, _, _, _) => SportsWalkingKind
  }

  /** The fields in constructor order: the data list the training was built from. */
  function Fields(t: Training): (data: seq<real>)
    ensures |data| == Arity(KindOf(t))
    ensures data[0] == t.action && data[1] == t.duration && data[2] == t.weight
    ensures t.SportsWalking? ==> data[3] == t.height
    ensures t.Swimming? ==> data[3] == t.lengthPool && data[4] == t.countPool
  {
    match t
    case Running(action, duration, weight) => [action, duration, weight]
    case SportsWalking(action, duration, weight, height) => [action, duration, weight, height]
    case Swimming(action, duration, weight, lengthPool, countPool) =>
      [action, duration, weight, lengthPool, countPool]
  }

  /**
   Calling the class with `*data`: binds the list elements positionally to the
   constructor's parameters, so reading the fields back gives the list.
   */
  function Construct(k: Kind, data: seq<real>): (t: Training)
    requires |data| == Arity(k)
    ensures KindOf(t) == k && Fields(t) == data
  {
    match k
    case SwimmingKind => Swimming(data[0], data[1], data[2], data[3], data[4])
    case RunningKind => Running(data[0], data[1], data[2])
    case SportsWalkingKind => SportsWalking(data[0], data[1], data[2], data[3])
  }

  /**
   `read_package`: nothing for an unknown code, otherwise the training of
   the code's class built from the data list. A known code with a list of
   the wrong length raises a TypeError in homework.py; that is excluded here.
   */
  function ReadPackage(workoutType: string, data: seq<real>): (r: Option<Training>)
    requires workoutType in POSSIBLE_VALUES ==> |data| == Arity(POSSIBLE_VALUES[workoutType])
    ensures r.Some? <==> workoutType in POSSIBLE_VALUES
    ensures r.Some? ==> KindOf(r.value) == POSSIBLE_VALUES[workoutType] && Fields(r.value) == data
  {
    if workoutType in POSSIBLE_VALUES then
      Some(Construct(POSSIBLE_VALUES[workoutType], data))
    else
      None
  }

  /** The activity code that `possible_values` maps to the training's class. */
  function Code(t: Training): (code: string)
    ensures code in POSSIBLE_VALUES && POSSIBLE_VALUES[code] == KindOf(t)
  {
    match t
    case Swimming(_, _, _, _, _) => "SWM"
    case Running(_, _, _) => "RUN"
    case SportsWalking(_, _, _, _) => "WLK"
  }

  /** Every training is read back from its own code and field list. */
  lemma ReadPackageRoundTrip(t: Training)
    ensures ReadPackage(Code(t), Fields(t)) == Some(t)
  {
  }

  /** A packet read as some training is that training's code and field list. */
  lemma ReadPackageInjective(workoutType: string, data: seq<real>, t: Training)
    requires workoutType in POSSIBLE_VALUES ==> |data| == Arity(POSSIBLE_VALUES[workoutType])
    requires ReadPackage(workoutType, data) == Some(t)
    ensures workoutType == Code(t) && data == Fields(t)
  {
  }

  /**
   The two tables name the same activity codes, and the list length the
   driver expects for a code is the arity of the class `read_package` builds.
   */
  lemma TablesAgree(workoutType: string)
    ensures workoutType in AVAILABLE_VALUES <==> workoutType in POSSIBLE_VALUES
    ensures workoutType in AVAILABLE_VALUES ==>
              AVAILABLE_VALUES[workoutType] == Arity(POSSIBLE_VALUES[workoutType])
  {
  }

  /** The driver's guard: the code is known and the list has the expected length. */
  predicate Dispatchable(workoutType: string, data: seq<real>)
    ensures Dispatchable(workoutType, data) ==> workoutType in POSSIBLE_VALUES && 3 <= |data| <= 5
  {
    workoutType in AVAILABLE_VALUES && AVAILABLE_VALUES[workoutType] == |data|
  }

  /**
   The guard admits exactly the packets that `read_package` binds without a
   TypeError: those whose code it knows and whose length is the arity of the
   code's class.
   */
  lemma DispatchableIffBindable(workoutType: string, data: seq<real>)
    ensures Dispatchable(workoutType, data) <==>
              workoutType in POSSIBLE_VALUES && |data| == Arity(POSSIBLE_VALUES[workoutType])
  {
  }

  /** The measurements of a guarded packet that the formulas divide by. */
  predicate PacketComputable(workoutType: string, data: seq<real>)
    requires Dispatchable(workoutType, data)
    ensures PacketComputable(workoutType, data) <==> Computable(ReadPackage(workoutType, data).value)
  {
    data[1] != 0.0 && (workoutType == "WLK" ==> data[3] != 0.0)
  }

  /**
   One pass of the driver loop without its printing: a packet that passes
   the guard is read and its report produced; any other packet is skipped.
   */
  function ProcessPacket(workoutType: string, data: seq<real>): (r: Option<InfoMessage>)
    requires Dispatchable(workoutType, data) ==> PacketComputable(workoutType, data)
    ensures r.Some? <==> Dispatchable(workoutType, data)
    ensures r.Some? ==>
              && ReadPackage(workoutType, data).Some?
              && r.value == ShowTrainingInfo(ReadPackage(workoutType, data).value)
  {
    if Dispatchable(workoutType, data) then
      var t := ReadPackage(workoutType, data).value;
      assert Computable(t);
      Some(ShowTrainingInfo(t))
    else
      None
  }

  /** The packets of the demo run in homework.py. */
  const DEMO_PACKAGES: seq<(string, seq<real>)> := [
    ("SWM", [720.0, 1.0, 80.0, 25.0, 50.0]),
    ("RUN", [15000.0, 1.0, 75.0]),
    ("WLK", [9000.0, 1.0, 75.0, 180.0])
  ]

  /** The reports the demo run prints, with exact arithmetic. */
  lemma DemoReports()
    ensures ProcessPacket(DEMO_PACKAGES[0].0, DEMO_PACKAGES[0].1)
            == Some(InfoMessage("Swimming", 1.0, 0.9936, 1.25, 376.0))
    ensures ProcessPacket(DEMO_PACKAGES[1].0, DEMO_PACKAGES[1].1)
            == Some(InfoMessage("Running", 1.0, 9.75, 9.75, 699.75))
    ensures ProcessPacket(DEMO_PACKAGES[2].0, DEMO_PACKAGES[2].1)
            == Some(InfoMessage("SportsWalking", 1.0, 5.85, 5.85, 157.5))
  {
  }
}
