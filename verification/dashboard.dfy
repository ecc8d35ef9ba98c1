/**
 * The dashboard page: the colour classes of instance states and stack
 * statuses, the region selector's fallback list, and the guard of the two
 * resource-loading actions.
 */
module Dashboard {
  import opened Wrappers
  import Server

  const GreenClass: string := "text-green-600 bg-green-50"
  const RedClass: string := "text-red-600 bg-red-50"
  const OrangeClass: string := "text-orange-600 bg-orange-50"
  const BlueClass: string := "text-blue-600 bg-blue-50"
  const GrayClass: string := "text-gray-600 bg-gray-50"

  /** The regions offered when none could be fetched. */
  const AwsRegions: seq<string> := [
    "us-east-1", "us-east-2", "us-west-1", "us-west-2",
    "eu-west-1", "eu-west-2", "eu-central-1", "eu-north-1",
    "ap-southeast-1", "ap-southeast-2", "ap-northeast-1", "ap-south-1",
    "sa-east-1", "ca-central-1"
  ]

  /** The colour class of each known instance state. */
  const StateColors: map<string, string> := map[
    "running" := GreenClass,
    "stopped" := RedClass,
    "stopping" := OrangeClass,
    "pending" := BlueClass,
    "terminated" := GrayClass
  ]

  // ---------------------------------------------------------------------
  // Instance state colours
  // ---------------------------------------------------------------------

  /** `getStateColor`: the class of a known state, gray for any other. */
  function StateColor(state: string): (cls: string)
    ensures state == "running" ==> cls == GreenClass
    ensures state == "stopped" ==> cls == RedClass
    ensures state == "stopping" ==> cls == OrangeClass
    ensures state == "pending" ==> cls == BlueClass
    ensures state == "terminated" ==> cls == GrayClass
    ensures state !in {"running", "stopped", "stopping", "pending", "terminated"} ==> cls == GrayClass
  {
    if state in StateColors then StateColors[state] else GrayClass
  }

  // ---------------------------------------------------------------------
  // Stack status colours
  // ---------------------------------------------------------------------

  /** `sub` occurs in `s` starting at position `i`. */
  predicate OccursAt(s: string, sub: string, i: nat)
  {
    i + |sub| <= |s| && s[i..i + |sub|] == sub
  }

  /** `s.includes(sub)`: `sub` occurs in `s` at some position. */
  predicate Contains(s: string, sub: string)
  {
    exists i: nat :: i <= |s| && OccursAt(s, sub, i)
  }

  /** A string that lacks one of the characters of `sub` does not contain `sub`. */
  lemma MissingCharNotContained(s: string, sub: string, c: char)
    requires c in sub && c !in s
    ensures !Contains(s, sub)
  {
    var k :| 0 <= k < |sub| && sub[k] == c;
    forall i: nat | i <= |s| ensures !OccursAt(s, sub, i) {
      if i + |sub| <= |s| {
        assert s[i..i + |sub|][k] == s[i + k];
      }
    }
  }

  /**
   * `getStackStatusColor`: an order-sensitive cascade of substring tests.
   * A completed status is green unless it is a rollback; what remains is red
   * when it failed or rolled back, blue while in progress, and gray otherwise.
   */
  function StackStatusColor(status: string): (cls: string)
    ensures Contains(status, "COMPLETE") && !Contains(status, "ROLLBACK") ==> cls == GreenClass
    ensures (&& !(Contains(status, "COMPLETE") && !Contains(status, "ROLLBACK"))
             && (Contains(status, "FAILED") || Contains(status, "ROLLBACK")))
            ==> cls == RedClass
    ensures (&& !Contains(status, "COMPLETE") && !Contains(status, "FAILED") && !Contains(status, "ROLLBACK")
             && Contains(status, "IN_PROGRESS"))
            ==> cls == BlueClass
    ensures (&& !Contains(status, "COMPLETE") && !Contains(status, "FAILED") && !Contains(status, "ROLLBACK")
             && !Contains(status, "IN_PROGRESS"))
            ==> cls == GrayClass
  {
    if Contains(status, "COMPLETE") && !Contains(status, "ROLLBACK") then GreenClass
    else if Contains(status, "FAILED") || Contains(status, "ROLLBACK") then RedClass
    else if Contains(status, "IN_PROGRESS") then BlueClass
    else GrayClass
  }

  /** Every rollback status is red, whether or not it completed. */
  lemma RollbackIsRed(status: string)
    requires Contains(status, "ROLLBACK")
    ensures StackStatusColor(status) == RedClass
  {
  }

  /** A completed clean-up still in progress is green: the first test wins over the third. */
  lemma CleanupInProgressIsGreen(status: string)
    requires status == "UPDATE_COMPLETE_CLEANUP_IN_PROGRESS"
    ensures StackStatusColor(status) == GreenClass
  {
    assert Contains(status, "COMPLETE") by {
      assert status == "UPDATE_" + "COMPLETE" + "_CLEANUP_IN_PROGRESS";
      assert OccursAt(status, "COMPLETE", 7);
    }
    assert !Contains(status, "ROLLBACK") by { MissingCharNotContained(status, "ROLLBACK", 'K'); }
  }

  /** A completed rollback is red, not green. */
  lemma RollbackCompleteIsRed(status: string)
    requires status == "ROLLBACK_COMPLETE"
    ensures StackStatusColor(status) == RedClass
  {
    assert Contains(status, "ROLLBACK") by {
      assert status == "ROLLBACK" + "_COMPLETE";
      assert OccursAt(status, "ROLLBACK", 0);
    }
  }

  /** A status still in progress that neither completed, failed nor rolled back is blue. */
  lemma CreateInProgressIsBlue(status: string)
    requires status == "CREATE_IN_PROGRESS"
    ensures StackStatusColor(status) == BlueClass
  {
    assert !Contains(status, "COMPLETE") by { MissingCharNotContained(status, "COMPLETE", 'M'); }
    assert !Contains(status, "FAILED") by { MissingCharNotContained(status, "FAILED", 'F'); }
    assert !Contains(status, "ROLLBACK") by { MissingCharNotContained(status, "ROLLBACK", 'K'); }
    assert Contains(status, "IN_PROGRESS") by {
      assert status == "CREATE_" + "IN_PROGRESS";
      assert OccursAt(status, "IN_PROGRESS", 7);
    }
  }

  /**
   * None of the statuses the stack listing asks the provider for contains
   * `FAILED`, so for listed stacks the red class is reached only through
   * `ROLLBACK`.
   */
  lemma ListedStatusesNeverFailed(status: string)
    requires status in Server.StackStatusFilter
    ensures !Contains(status, "FAILED")
  {
    assert 'F' !in status;
    MissingCharNotContained(status, "FAILED", 'F');
  }

  // ---------------------------------------------------------------------
  // Region selector and load actions
  // ---------------------------------------------------------------------

  /** The selector's options: the fetched regions when there are any, else the fixed list. */
  function RegionOptions(availableRegions: seq<string>): (options: seq<string>)
    ensures |options| > 0
    ensures |availableRegions| > 0 ==> options == availableRegions
    ensures availableRegions == [] ==> options == AwsRegions && |options| == 14
  {
    if |availableRegions| > 0 then availableRegions else AwsRegions
  }

  /** The session the login page left in session storage. */
  datatype DashboardSession = DashboardSession(sessionId: string, accountId: string, roleName: string, ssoRegion: string)

  datatype ResourceKind = Ec2Instances | CloudFormationStacks

  /** The backend request a load action sends. */
  datatype ResourceRequest = ResourceRequest(kind: ResourceKind, sessionId: string, region: string)

  /**
   * `loadEc2Instances` and `loadCloudFormationStacks`: without a session
   * they return before sending anything; otherwise they ask for the selected
   * region under the stored session id.
   */
  function LoadRequest(kind: ResourceKind, session: Option<DashboardSession>, selectedRegion: string)
    : (request: Option<ResourceRequest>)
    ensures request.None? <==> session.None?
    ensures request.Some? ==>
              request.value.kind == kind && request.value.sessionId == session.value.sessionId &&
              request.value.region == selectedRegion
  {
    match session
    case None => None
    case Some(s) => Some(ResourceRequest(kind, s.sessionId, selectedRegion))
  }
}
