/** sensor/models.py: a sensor's availability as its deployments open and
    close it, and the lookup of the deployment covering a moment. Moments are
    integers (any fixed unit since a fixed epoch); `timezone.now()` is a
    parameter. */
module SensorModels {
  import opened Wrappers

  const NotAvailableMessage: string := "This sensor is already deployed and not available."

  /** The state `deploy` and `decommission` read and write: the sensor's
      `available` flag and the deployment's `decommissioned_at`. */
  datatype State = State(available: bool, decommissionedAt: Option<int>)

  /** `deploy`: refused with `ValueError` while the sensor is unavailable,
      otherwise the sensor becomes unavailable. */
  function AfterDeploy(s: State): (r: Result<State, string>)
    ensures r.Failure? <==> !s.available
    ensures r.Failure? ==> r.error == NotAvailableMessage
    ensures r.Success? ==> r.value == State(false, s.decommissionedAt)
  {
    if !s.available then Failure(NotAvailableMessage)
    else Success(s.(available := false))
  }

  /** `decommission`: on an open deployment, closes it at `now` and frees the
      sensor; on a closed one, does nothing. */
  function AfterDecommission(s: State, now: int): (r: State)
    ensures s.decommissionedAt.None? ==> r == State(true, Some(now))
    ensures s.decommissionedAt.Some? ==> r == s
  {
    if s.decommissionedAt.None? then State(true, Some(now)) else s
  }

  /** A closed deployment stays closed at the moment it was first closed,
      whatever later calls pass as `now`. */
  lemma DecommissionIdempotent(s: State, now: int, later: int)
    ensures AfterDecommission(AfterDecommission(s, now), later) == AfterDecommission(s, now)
    ensures AfterDecommission(s, now).decommissionedAt.Some?
  {
  }

  /** A sensor can be deployed once; a second `deploy` before it is freed is
      refused. */
  lemma DeployOnce(s: State)
    requires AfterDeploy(s).Success?
    ensures AfterDeploy(AfterDeploy(s).value) == Failure(NotAvailableMessage)
  {
  }

  /** Deploying a free sensor on an open deployment and then decommissioning
      that deployment frees the sensor again and records when. */
  lemma DeployThenDecommission(s: State, now: int)
    requires s.available && s.decommissionedAt.None?
    ensures AfterDecommission(AfterDeploy(s).value, now) == State(true, Some(now))
  {
  }

  /** `deploy` does not look at `decommissioned_at`: deploying a deployment
      that is already closed takes the sensor, and its `decommission` then
      does nothing, so that deployment can never free the sensor. */
  lemma ClosedDeploymentKeepsSensor(closedAt: int, now: int)
    ensures var s := AfterDeploy(State(true, Some(closedAt)));
      s.Success? && !s.value.available && !AfterDecommission(s.value, now).available
  {
  }

  /** A sensing device; `available` defaults to true. */
  class Sensor {
    var identifier: string
    var available: bool

    constructor (identifier: string)
      ensures this.identifier == identifier && available
    {
      this.identifier := identifier;
      available := true;
    }
  }

  /** A deployment of `sensor`; the database writes (`save()`) are not part
      of this model. */
  class Deployment {
    const sensor: Sensor
    var deployedAt: int
    var decommissionedAt: Option<int>

    constructor (sensor: Sensor, deployedAt: int)
      ensures this.sensor == sensor && this.deployedAt == deployedAt && decommissionedAt.None?
    {
      this.sensor := sensor;
      this.deployedAt := deployedAt;
      decommissionedAt := None;
    }

    function Current(): State
      reads this, sensor
    {
      State(sensor.available, decommissionedAt)
    }

    method Deploy() returns (r: Result<(), string>)
      modifies sensor
      ensures r.Failure? <==> AfterDeploy(old(Current())).Failure?
      ensures r.Failure? ==> r.error == NotAvailableMessage && unchanged(sensor)
      ensures r.Success? ==> Current() == AfterDeploy(old(Current())).value
      ensures unchanged(this)
    {
      if !sensor.available {
        return Failure(NotAvailableMessage);
      }
      sensor.available := false;
      return Success(());
    }

    method Decommission(now: int)
      modifies this, sensor
      ensures Current() == AfterDecommission(old(Current()), now)
      ensures deployedAt == old(deployedAt)
    {
      if decommissionedAt.None? {
        decommissionedAt := Some(now);
        sensor.available := true;
      }
    }
  }

  /** A stored deployment row, as `find_deployment` queries it. */
  datatype Row = Row(location: nat, sensor: nat, deployedAt: int, decommissionedAt: Option<int>)

  /** The lookup's filter: same location and sensor, deployed at or before
      `t`, and decommissioned at or after it. `openMatches` says whether a
      deployment not yet decommissioned is kept. */
  predicate Selects(d: Row, location: nat, sensor: nat, t: int, openMatches: bool) {
    d.location == location && d.sensor == sensor && d.deployedAt <= t
    && (if d.decommissionedAt.None? then openMatches else t <= d.decommissionedAt.value)
  }

  /** The query as written: a NULL `decommissioned_at` never compares, so an
      open deployment never matches. */
  predicate Covers(d: Row, location: nat, sensor: nat, t: int) {
    Selects(d, location, sensor, t, false)
  }

  /** The rows the filter selects, in table order. */
  function Matching(table: seq<Row>, location: nat, sensor: nat, t: int, openMatches: bool): (r: seq<Row>)
    ensures |r| <= |table|
    ensures forall k :: 0 <= k < |r| ==> r[k] in table && Selects(r[k], location, sensor, t, openMatches)
    ensures forall d :: d in table && Selects(d, location, sensor, t, openMatches) ==> d in r
  {
    if table == [] then []
    else
      var rest := Matching(table[1..], location, sensor, t, openMatches);
      assert forall d :: d in table ==> d == table[0] || d in table[1..];
      if Selects(table[0], location, sensor, t, openMatches) then [table[0]] + rest else rest
  }

  /** When the row at `i` is the only one the filter selects, the filter
      gives exactly that row. */
  lemma {:induction false} OnlySelected(table: seq<Row>, location: nat, sensor: nat, t: int, openMatches: bool, i: nat)
    requires i < |table| && Selects(table[i], location, sensor, t, openMatches)
    requires forall j :: 0 <= j < |table| && Selects(table[j], location, sensor, t, openMatches) ==> j == i
    ensures Matching(table, location, sensor, t, openMatches) == [table[i]]
    decreases |table|
  {
    var rest := Matching(table[1..], location, sensor, t, openMatches);
    if i == 0 {
      forall j | 0 <= j < |table[1..]|
        ensures !Selects(table[1..][j], location, sensor, t, openMatches)
      {
        assert table[1..][j] == table[j + 1];
      }
      NoneSelected(table[1..], location, sensor, t, openMatches);
    } else {
      forall j | 0 <= j < |table[1..]| && Selects(table[1..][j], location, sensor, t, openMatches)
        ensures j == i - 1
      {
        assert table[1..][j] == table[j + 1];
      }
      OnlySelected(table[1..], location, sensor, t, openMatches, i - 1);
    }
  }

  /** No row selected: the filter gives nothing. */
  lemma {:induction false} NoneSelected(table: seq<Row>, location: nat, sensor: nat, t: int, openMatches: bool)
    requires forall j :: 0 <= j < |table| ==> !Selects(table[j], location, sensor, t, openMatches)
    ensures Matching(table, location, sensor, t, openMatches) == []
    decreases |table|
  {
    if table != [] {
      assert !Selects(table[0], location, sensor, t, openMatches);
      forall j | 0 <= j < |table[1..]|
        ensures !Selects(table[1..][j], location, sensor, t, openMatches)
      {
        assert table[1..][j] == table[j + 1];
      }
      NoneSelected(table[1..], location, sensor, t, openMatches);
    }
  }

  /** `objects.get` raising anything but `DoesNotExist`. */
  datatype DbError = MultipleObjectsReturned

  /** `find_deployment`: the moment defaults to `now`; no match is `None`,
      one match is that row, and several raise. */
  function FindDeployment(table: seq<Row>, location: nat, sensor: nat, timestamp: Option<int>, now: int): (r: Result<Option<Row>, DbError>)
    ensures r.Success? && r.value.Some? ==> r.value.value in table && Covers(r.value.value, location, sensor, timestamp.GetOr(now))
  {
    var t := timestamp.GetOr(now);
    var ms := Matching(table, location, sensor, t, false);
    if |ms| == 0 then Success(None)
    else if |ms| == 1 then Success(Some(ms[0]))
    else Failure(MultipleObjectsReturned)
  }

  /** A row found covers the moment, and is the only stored row that does. */
  lemma FoundCovers(table: seq<Row>, location: nat, sensor: nat, timestamp: Option<int>, now: int)
    requires FindDeployment(table, location, sensor, timestamp, now).Success?
    requires FindDeployment(table, location, sensor, timestamp, now).value.Some?
    ensures var d := FindDeployment(table, location, sensor, timestamp, now).value.value;
      d in table && Covers(d, location, sensor, timestamp.GetOr(now))
      && forall e :: e in table && Covers(e, location, sensor, timestamp.GetOr(now)) ==> e == d
  {
    var ms := Matching(table, location, sensor, timestamp.GetOr(now), false);
    assert |ms| == 1;
    forall e | e in table && Covers(e, location, sensor, timestamp.GetOr(now))
      ensures e == ms[0]
    {
      assert e in ms;
    }
  }

  /** `None` exactly when no stored row covers the moment. */
  lemma NotFoundIffNoCover(table: seq<Row>, location: nat, sensor: nat, timestamp: Option<int>, now: int)
    ensures FindDeployment(table, location, sensor, timestamp, now) == Success(None)
      <==> forall d :: d in table ==> !Covers(d, location, sensor, timestamp.GetOr(now))
  {
    var ms := Matching(table, location, sensor, timestamp.GetOr(now), false);
    if ms != [] {
      assert ms[0] in table;
    }
  }

  /** A deployment that is still open is never found, whatever the moment. */
  lemma OpenNeverFound(table: seq<Row>, location: nat, sensor: nat, timestamp: Option<int>, now: int)
    requires FindDeployment(table, location, sensor, timestamp, now).Success?
    requires FindDeployment(table, location, sensor, timestamp, now).value.Some?
    ensures FindDeployment(table, location, sensor, timestamp, now).value.value.decommissionedAt.Some?
  {
    FoundCovers(table, location, sensor, timestamp, now);
  }

  /** `find_deployment` as its docstring describes it: a deployment not yet
      decommissioned covers every moment from its deployment on. */
  function FindDeploymentIntended(table: seq<Row>, location: nat, sensor: nat, timestamp: Option<int>, now: int): (r: Result<Option<Row>, DbError>)
    ensures r.Success? && r.value.Some? ==> r.value.value in table && Selects(r.value.value, location, sensor, timestamp.GetOr(now), true)
    ensures r == Success(None) <==> forall j :: 0 <= j < |table| ==> !Selects(table[j], location, sensor, timestamp.GetOr(now), true)
  {
    var t := timestamp.GetOr(now);
    var ms := Matching(table, location, sensor, t, true);
    assert ms != [] ==> ms[0] in table;
    if |ms| == 0 then Success(None)
    else if |ms| == 1 then Success(Some(ms[0]))
    else Failure(MultipleObjectsReturned)
  }

  /** As written, the live deployment of a sensor is missed: when the only
      row for the location and sensor deployed by `now` is still open, the
      lookup without a timestamp finds nothing. */
  lemma LiveDeploymentMissed(table: seq<Row>, i: nat, now: int)
    requires i < |table| && table[i].decommissionedAt.None? && table[i].deployedAt <= now
    requires forall j :: 0 <= j < |table| && Selects(table[j], table[i].location, table[i].sensor, now, true) ==> j == i
    ensures FindDeployment(table, table[i].location, table[i].sensor, None, now) == Success(None)
  {
    NoneSelected(table, table[i].location, table[i].sensor, now, false);
  }

  /** The intended lookup finds it: the live deployment is the answer. */
  lemma LiveDeploymentFound(table: seq<Row>, i: nat, now: int)
    requires i < |table| && table[i].decommissionedAt.None? && table[i].deployedAt <= now
    requires forall j :: 0 <= j < |table| && Selects(table[j], table[i].location, table[i].sensor, now, true) ==> j == i
    ensures FindDeploymentIntended(table, table[i].location, table[i].sensor, None, now) == Success(Some(table[i]))
  {
    OnlySelected(table, table[i].location, table[i].sensor, now, true, i);
  }

  /** The two lookups agree whenever no open deployment is in question. */
  lemma {:induction false} IntendedAgreesOnClosed(table: seq<Row>, location: nat, sensor: nat, t: int)
    requires forall j :: 0 <= j < |table| ==> table[j].decommissionedAt.Some?
    ensures Matching(table, location, sensor, t, true) == Matching(table, location, sensor, t, false)
    decreases |table|
  {
    if table != [] {
      assert forall j :: 0 <= j < |table[1..]| ==> table[1..][j] == table[j + 1];
      IntendedAgreesOnClosed(table[1..], location, sensor, t);
    }
  }

  /** Without a timestamp the lookup is the lookup at `now`. */
  lemma DefaultsToNow(table: seq<Row>, location: nat, sensor: nat, now: int, other: int)
    ensures FindDeployment(table, location, sensor, None, now) == FindDeployment(table, location, sensor, Some(now), other)
  {
  }
}
