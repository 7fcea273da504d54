/**
 * The per-lane group of data-selection operators (one inner operator per
 * dataset role, plus convenience outputs for the first three roles) and the
 * multi-lane wrapper that adds, removes, pushes and drops lanes.
 *
 * The number of inner operators of a group is the number of roles: the
 * group resizes its DatasetGroup input to the role list whenever the role
 * list becomes ready.
 */
module DataSelectionGroups {
  import opened Wrappers
  import opened Builtins
  import opened DatasetInfos
  import opened DataSelection

  // -----------------------------------------------------------------------
  // OpDataSelectionGroup

  /** A convenience output: connected to the matching output of inner operator `index`, or disconnected (not ready). */
  datatype Link = Disconnected | Inner(index: nat)

  datatype Convenience = Convenience(image: Link, image1: Link, image2: Link, imageName: Link, allowLabels: Link)

  /** Where the five convenience outputs point when there are `n` images. */
  function ConvenienceLinks(n: nat): (r: Convenience)
    ensures n == 0 <==> r == Convenience(Disconnected, Disconnected, Disconnected, Disconnected, Disconnected)
    ensures n > 0 ==> r.image == Inner(0) && r.imageName == Inner(0) && r.allowLabels == Inner(0)
    ensures r.image1 != Disconnected <==> n >= 2
    ensures r.image2 != Disconnected <==> n >= 3
    ensures r.image1 != Disconnected ==> r.image1 == Inner(1)
    ensures r.image2 != Disconnected ==> r.image2 == Inner(2)
  {
    if n == 0 then Convenience(Disconnected, Disconnected, Disconnected, Disconnected, Disconnected)
    else Convenience(Inner(0), if n >= 2 then Inner(1) else Disconnected,
                     if n >= 3 then Inner(2) else Disconnected, Inner(0), Inner(0))
  }

  datatype GroupError =
    /** TypeError: the inner operators were never built (the first role list was empty). */
    | NoInnerOperators

  class OpDataSelectionGroup {
    /** `_roles`: the role list the inner operators were last built for. */
    var roles: seq<string>
    /** `_opDatasets is not None`. */
    var built: bool
    /** How many times the inner operators have been (re)built. */
    var generation: nat
    /** The RoleName input of each inner operator. */
    var innerRoleNames: seq<string>
    var imageGroupConnected: bool
    var links: Convenience

    ghost predicate Valid()
      reads this
    {
      && (built ==> |innerRoleNames| == |roles| && imageGroupConnected)
      && (!built ==> roles == [] && innerRoleNames == [] && generation == 0)
    }

    constructor ()
      ensures Valid() && !built && roles == [] && generation == 0
      ensures !imageGroupConnected && links == ConvenienceLinks(0)
    {
      roles := [];
      built := false;
      generation := 0;
      innerRoleNames := [];
      imageGroupConnected := false;
      links := ConvenienceLinks(0);
    }

    /**
     * `setupOutputs` with the current DatasetRoles value: the inner operators
     * are rebuilt exactly when the role list changed, every inner operator gets
     * its role name, and the convenience outputs follow the number of images.
     */
    method SetupOutputs(datasetRoles: seq<string>) returns (outcome: Outcome<GroupError>)
      requires Valid()
      modifies this
      ensures Valid()
      ensures roles == datasetRoles
      ensures datasetRoles != old(roles) ==> generation == old(generation) + 1
      ensures datasetRoles == old(roles) ==> generation == old(generation)
      ensures outcome.Fail? <==> datasetRoles == old(roles) && !old(built)
      ensures outcome.Fail? ==> outcome.error == NoInnerOperators && links == old(links)
                                && built == old(built) && innerRoleNames == old(innerRoleNames)
      ensures outcome.Pass? ==> built && imageGroupConnected && innerRoleNames == datasetRoles
                                && links == ConvenienceLinks(|datasetRoles|)
    {
      if datasetRoles != roles {
        roles := datasetRoles;
        imageGroupConnected := false;
        links := links.(image := Disconnected, image1 := Disconnected, image2 := Disconnected);
        innerRoleNames := seq(|datasetRoles|, _ => "");
        built := true;
        generation := generation + 1;
        imageGroupConnected := true;
      }
      if !built {
        return Fail(NoInnerOperators);
      }
      ghost var gen, connected := generation, imageGroupConnected;
      var i := 0;
      while i < |innerRoleNames|
        invariant 0 <= i <= |innerRoleNames| == |roles|
        invariant roles == datasetRoles && built && generation == gen && imageGroupConnected == connected
        invariant forall j :: 0 <= j < i ==> innerRoleNames[j] == roles[j]
      {
        innerRoleNames := innerRoleNames[i := roles[i]];
        i := i + 1;
      }
      var n := |innerRoleNames|;
      if n > 0 {
        links := links.(image := Inner(0));
        links := links.(image1 := if n >= 2 then Inner(1) else Disconnected);
        links := links.(image2 := if n >= 3 then Inner(2) else Disconnected);
        links := links.(imageName := Inner(0), allowLabels := Inner(0));
      } else {
        links := Convenience(Disconnected, Disconnected, Disconnected, Disconnected, Disconnected);
      }
      outcome := Pass;
    }
  }

  // -----------------------------------------------------------------------
  // OpMultiLaneDataSelectionGroup

  /** One lane: the DatasetGroup input of its group, one slot per role (None = not set). */
  datatype Lane = Lane(datasets: seq<Option<DatasetInfo>>)

  function EmptyLane(roleCount: nat): (l: Lane)
    ensures |l.datasets| == roleCount && forall i :: 0 <= i < roleCount ==> l.datasets[i].None?
  {
    Lane(seq(roleCount, _ => None))
  }

  /** The lane `configure(infos)` produces: every role named in `infos` gets its description. */
  function ConfiguredLane(roles: seq<string>, infos: map<string, DatasetInfo>): (l: Lane)
    ensures |l.datasets| == |roles|
    ensures forall i :: 0 <= i < |roles| ==>
              l.datasets[i] == if roles[i] in infos then Some(infos[roles[i]]) else None
  {
    Lane(seq(|roles|, i requires 0 <= i < |roles| => if roles[i] in infos then Some(infos[roles[i]]) else None))
  }

  /**
   * The lane `configure(infos)` leaves when it stops after role `n - 1`: the
   * roles before `n` that `infos` names are set, the rest are unset.
   */
  function ConfiguredPrefix(roles: seq<string>, infos: map<string, DatasetInfo>, n: nat): (l: Lane)
    ensures |l.datasets| == |roles|
    ensures forall i :: 0 <= i < |roles| ==>
              l.datasets[i] == if i < n && roles[i] in infos then Some(infos[roles[i]]) else None
  {
    Lane(seq(|roles|, i requires 0 <= i < |roles| => if i < n && roles[i] in infos then Some(infos[roles[i]]) else None))
  }

  /** Role `k` is the first role whose given description fails to configure. */
  predicate FirstRejectedRole(roles: seq<string>, infos: map<string, DatasetInfo>, forceAxisOrder: seq<string>, k: int) {
    && 0 <= k < |roles| && roles[k] in infos
    && Configure(infos[roles[k]], roles[k], forceAxisOrder).Failure?
    && forall j :: 0 <= j < k && roles[j] in infos ==> Configure(infos[roles[j]], roles[j], forceAxisOrder).Success?
  }

  /** The error `configure(infos)` raises when role `k` is the first rejected role. */
  function RejectionError(roles: seq<string>, infos: map<string, DatasetInfo>, forceAxisOrder: seq<string>, k: int): LaneError
    requires FirstRejectedRole(roles, infos, forceAxisOrder, k)
  {
    LaneSetupFailed(roles[k], Configure(infos[roles[k]], roles[k], forceAxisOrder).error)
  }

  /** Every description given for a role configures without error. */
  predicate LaneAccepted(roles: seq<string>, infos: map<string, DatasetInfo>, forceAxisOrder: seq<string>) {
    forall i :: 0 <= i < |roles| && roles[i] in infos ==>
      Configure(infos[roles[i]], roles[i], forceAxisOrder).Success?
  }

  datatype LaneError =
    /** Only the trailing lane can be removed. */
    | InvalidLaneIndex(index: int)
    /** The lane returned by `get_lane` does not exist. */
    | NoSuchLane(index: int)
    /** Setting a role's description failed in the inner operator's setup. */
    | LaneSetupFailed(role: string, error: SelectionError)
    /** The workflow's `handleNewLanesAdded` raised. */
    | WorkflowRejected

  class LaneGroup {
    /** The broadcast DatasetRoles input. */
    const roles: seq<string>
    const forceAxisOrder: seq<string>
    /** `innerOperators`, one group per lane. */
    var lanes: seq<Lane>

    ghost predicate Valid()
      reads this
    {
      forall i :: 0 <= i < |lanes| ==> |lanes[i].datasets| == |roles|
    }

    constructor (roles: seq<string>, forceAxisOrder: seq<string>)
      ensures Valid() && lanes == [] && this.roles == roles && this.forceAxisOrder == forceAxisOrder
    {
      this.roles := roles;
      this.forceAxisOrder := forceAxisOrder;
      lanes := [];
    }

    /** `addLane`: appends only when asked for the next index, then returns `get_lane(laneIndex)`. */
    method AddLane(laneIndex: int) returns (lane: Result<nat, LaneError>)
      requires Valid()
      modifies this
      ensures Valid()
      ensures laneIndex == |old(lanes)| ==> lanes == old(lanes) + [EmptyLane(|roles|)]
      ensures laneIndex != |old(lanes)| ==> lanes == old(lanes)
      ensures PyIndex(|lanes|, laneIndex).Some? ==> lane == Success(PyIndex(|lanes|, laneIndex).value)
      ensures PyIndex(|lanes|, laneIndex).None? ==> lane == Failure(NoSuchLane(laneIndex))
    {
      if |lanes| == laneIndex {
        lanes := lanes + [EmptyLane(|roles|)];
      }
      var k := PyIndex(|lanes|, laneIndex);
      lane := if k.Some? then Success(k.value) else Failure(NoSuchLane(laneIndex));
    }

    /** The wrapper's own lane removal (trailing lane only). */
    method RemoveTrailingLane(laneIndex: int) returns (outcome: Outcome<LaneError>)
      requires Valid()
      modifies this
      ensures Valid()
      ensures 0 <= laneIndex && laneIndex == |old(lanes)| - 1 ==> outcome.Pass? && lanes == old(lanes)[..laneIndex]
      ensures !(0 <= laneIndex && laneIndex == |old(lanes)| - 1) ==>
                outcome == Fail(InvalidLaneIndex(laneIndex)) && lanes == old(lanes)
    {
      if 0 <= laneIndex && laneIndex == |lanes| - 1 {
        lanes := lanes[..laneIndex];
        outcome := Pass;
      } else {
        outcome := Fail(InvalidLaneIndex(laneIndex));
      }
    }

    /** `removeLane`: only shrinks, and does nothing when there are at most `finalLength` lanes. */
    method RemoveLane(laneIndex: int, finalLength: int) returns (outcome: Outcome<LaneError>)
      requires Valid()
      modifies this
      ensures Valid()
      ensures |old(lanes)| <= finalLength ==> outcome.Pass? && lanes == old(lanes)
      ensures |old(lanes)| > finalLength && 0 <= laneIndex && laneIndex == |old(lanes)| - 1 ==>
                outcome.Pass? && lanes == old(lanes)[..laneIndex]
      ensures |old(lanes)| > finalLength && !(0 <= laneIndex && laneIndex == |old(lanes)| - 1) ==>
                outcome == Fail(InvalidLaneIndex(laneIndex)) && lanes == old(lanes)
    {
      if |lanes| > finalLength {
        outcome := RemoveTrailingLane(laneIndex);
      } else {
        outcome := Pass;
      }
    }

    /**
     * The lane's `configure(infos)`: sets each role's description in role
     * order; each one triggers the inner operator's setup, whose failure stops
     * the loop.
     */
    method ConfigureLane(index: nat, infos: map<string, DatasetInfo>) returns (failure: Option<LaneError>)
      requires Valid() && index < |lanes|
      requires lanes[index] == EmptyLane(|roles|)
      modifies this
      ensures Valid() && |lanes| == |old(lanes)| && lanes == old(lanes)[index := lanes[index]]
      ensures failure.None? <==> LaneAccepted(roles, infos, forceAxisOrder)
      ensures failure.None? ==> lanes == old(lanes)[index := ConfiguredLane(roles, infos)]
      ensures failure.Some? ==>
                exists k :: FirstRejectedRole(roles, infos, forceAxisOrder, k)
                  && failure.value == RejectionError(roles, infos, forceAxisOrder, k)
                  && lanes == old(lanes)[index := ConfiguredPrefix(roles, infos, k + 1)]
    {
      var i := 0;
      while i < |roles|
        invariant 0 <= i <= |roles|
        invariant Valid() && |lanes| == |old(lanes)| && lanes == old(lanes)[index := lanes[index]]
        invariant forall j :: 0 <= j < i ==>
                    lanes[index].datasets[j] == if roles[j] in infos then Some(infos[roles[j]]) else None
        invariant forall j :: i <= j < |roles| ==> lanes[index].datasets[j].None?
        invariant forall j :: 0 <= j < i && roles[j] in infos ==>
                    Configure(infos[roles[j]], roles[j], forceAxisOrder).Success?
      {
        if roles[i] in infos {
          var info := infos[roles[i]];
          lanes := lanes[index := Lane(lanes[index].datasets[i := Some(info)])];
          var setup := Configure(info, roles[i], forceAxisOrder);
          if setup.Failure? {
            assert FirstRejectedRole(roles, infos, forceAxisOrder, i);
            assert lanes[index] == ConfiguredPrefix(roles, infos, i + 1);
            return Some(LaneSetupFailed(roles[i], setup.error));
          }
        }
        i := i + 1;
      }
      assert lanes[index] == ConfiguredLane(roles, infos);
      failure := None;
    }

    /**
     * `pushLane`: add a lane, configure it and tell the workflow; if anything
     * fails the new lane is removed again, so the lane count is as before.
     * `workflowAccepts` says whether the workflow's `handleNewLanesAdded` succeeds.
     */
    method PushLane(infos: map<string, DatasetInfo>, workflowAccepts: bool) returns (outcome: Outcome<LaneError>)
      requires Valid()
      modifies this
      ensures Valid()
      ensures outcome.Pass? <==> LaneAccepted(roles, infos, forceAxisOrder) && workflowAccepts
      ensures outcome.Pass? ==> lanes == old(lanes) + [ConfiguredLane(roles, infos)]
      ensures outcome.Fail? ==> lanes == old(lanes)
      ensures !LaneAccepted(roles, infos, forceAxisOrder) ==>
                exists k :: FirstRejectedRole(roles, infos, forceAxisOrder, k)
                  && outcome == Fail(RejectionError(roles, infos, forceAxisOrder, k))
      ensures LaneAccepted(roles, infos, forceAxisOrder) && !workflowAccepts ==> outcome == Fail(WorkflowRejected)
    {
      var original := |lanes|;
      var lane := AddLane(original);
      var failure := ConfigureLane(original, infos);
      if failure.None? && !workflowAccepts {
        failure := Some(WorkflowRejected);
      }
      if failure.Some? {
        var removed := RemoveLane(original, original);
        assert lanes == old(lanes);
        return Fail(failure.value);
      }
      outcome := Pass;
    }

    /** `dropLastLane`: removes the last lane; with no lanes the removal is refused. */
    method DropLastLane() returns (outcome: Outcome<LaneError>)
      requires Valid()
      modifies this
      ensures Valid()
      ensures |old(lanes)| > 0 ==> outcome.Pass? && lanes == old(lanes)[..|old(lanes)| - 1]
      ensures |old(lanes)| == 0 ==> outcome == Fail(InvalidLaneIndex(-1)) && lanes == old(lanes)
    {
      outcome := RemoveLane(|lanes| - 1, |lanes| - 1);
    }
  }
}
