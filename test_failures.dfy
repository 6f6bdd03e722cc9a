/** How shared-scripts/show-test-failures.py turns the decoded output of
    `xcrun xcresulttool get test-results tests` into a list of test failures:
    the device table, the walk over the test-node tree, and the resolution of
    device ids to readable labels. The tool call and the JSON decoding are
    not modelled: their result is given as a `TestResults` value, or `None`
    when the tool failed, timed out or printed something that is not JSON. */
module TestFailures {
  import opened Wrappers
  import opened PyStrings

  /** Node types whose names make up a failure's test path. */
  const HierarchyTypes: seq<string> := ["Unit test bundle", "UI test bundle", "Test Suite", "Test Case"]
  const DeviceType: string := "Device"
  const FailureMessageType: string := "Failure Message"
  /** The label used for a device entry without a `deviceName`. */
  const UnknownDevice: string := "Unknown Device"

  /** One entry of the decoded `devices` list; `None` is a missing key. */
  datatype Device = Device(deviceId: Option<string>, deviceName: Option<string>, osVersion: Option<string>)

  /** One node of the decoded `testNodes` forest. A missing `nodeType` or
      `name` reads as "" and missing `children` as []; `details` stays
      optional because its default is the node's own name. The node's
      `result` key is read by the script but never used. */
  datatype TestNode = TestNode(nodeType: string, name: string, details: Option<string>, children: seq<TestNode>)

  /** The decoded document: missing `devices` or `testNodes` read as []. */
  datatype TestResults = TestResults(devices: seq<Device>, testNodes: seq<TestNode>)

  /** One reported failure. `device` is `None` when no Device node encloses
      the failure. */
  datatype Failure = Failure(path: seq<string>, message: string, device: Option<string>)

  // ---------------------------------------------------------------------
  // Device table
  // ---------------------------------------------------------------------

  /** The readable label of a device: "name (os)" when an OS version is
      given, otherwise the bare name. */
  function DeviceLabel(d: Device): string {
    var name := d.deviceName.GetOr(UnknownDevice);
    var os := d.osVersion.GetOr("");
    if os != "" then name + " (" + os + ")" else name
  }

  /** The device entry carries the (truthy) id `id`. */
  predicate HasId(d: Device, id: string) {
    Truthy(d.deviceId) && d.deviceId.value == id
  }

  /** The id-to-label table after entering the devices in list order. */
  function DeviceMap(devices: seq<Device>): map<string, string>
    decreases |devices|
  {
    if devices == [] then map[]
    else
      var m := DeviceMap(devices[..|devices| - 1]);
      var d := devices[|devices| - 1];
      if Truthy(d.deviceId) then m[d.deviceId.value := DeviceLabel(d)] else m
  }

  /** The table has an entry exactly for the truthy ids of the list. */
  lemma {:induction false} DeviceMapKeys(devices: seq<Device>, id: string)
    ensures id in DeviceMap(devices) <==> exists i :: 0 <= i < |devices| && HasId(devices[i], id)
    decreases |devices|
  {
    if devices != [] {
      var front := devices[..|devices| - 1];
      DeviceMapKeys(front, id);
      if exists i :: 0 <= i < |front| && HasId(front[i], id) {
        var i :| 0 <= i < |front| && HasId(front[i], id);
        assert HasId(devices[i], id);
      }
      if exists i :: 0 <= i < |devices| && HasId(devices[i], id) {
        var i :| 0 <= i < |devices| && HasId(devices[i], id);
        if i < |front| {
          assert HasId(front[i], id);
        }
      }
    }
  }

  /** The entry of an id is the label of the LAST device carrying it: a later
      duplicate overwrites an earlier one. */
  lemma {:induction false} DeviceMapLastWins(devices: seq<Device>, i: nat)
    requires i < |devices| && Truthy(devices[i].deviceId)
    requires forall j :: i < j < |devices| ==> devices[j].deviceId != devices[i].deviceId
    ensures devices[i].deviceId.value in DeviceMap(devices)
    ensures DeviceMap(devices)[devices[i].deviceId.value] == DeviceLabel(devices[i])
    decreases |devices|
  {
    if i < |devices| - 1 {
      var front := devices[..|devices| - 1];
      assert front[i] == devices[i];
      DeviceMapLastWins(front, i);
    }
  }

  /** `build_device_map`: one pass over the device list filling a table. */
  method BuildDeviceMap(devices: seq<Device>) returns (deviceMap: map<string, string>)
    ensures deviceMap == DeviceMap(devices)
  {
    deviceMap := map[];
    for i := 0 to |devices|
      invariant deviceMap == DeviceMap(devices[..i])
    {
      var device := devices[i];
      var deviceName := device.deviceName.GetOr(UnknownDevice);
      var osVersion := device.osVersion.GetOr("");
      if device.deviceId.Some? && device.deviceId.value != "" {
        if osVersion != "" {
          deviceMap := deviceMap[device.deviceId.value := deviceName + " (" + osVersion + ")"];
        } else {
          deviceMap := deviceMap[device.deviceId.value := deviceName];
        }
      }
      assert devices[..i + 1][..i] == devices[..i];
    }
    assert devices[..|devices|] == devices;
  }

  // ---------------------------------------------------------------------
  // Walking the test-node tree
  // ---------------------------------------------------------------------

  /** The device in force below `n`: its own name if it is a Device node. */
  function DeviceBelow(n: TestNode, device: Option<string>): Option<string> {
    if n.nodeType == DeviceType then Some(n.name) else device
  }

  /** The test path in force below `n`: extended by its name if it is a
      bundle, suite or test case. */
  function PathBelow(n: TestNode, path: seq<string>): seq<string> {
    if n.nodeType in HierarchyTypes then path + [n.name] else path
  }

  /** The failure text of a node: its `details`, else its name. */
  function MessageOf(n: TestNode): string {
    n.details.GetOr(n.name)
  }

  /** What the visit of `n` itself adds, given the path and device already
      updated for `n`. */
  function OwnFailure(n: TestNode, path: seq<string>, device: Option<string>): seq<Failure> {
    if n.nodeType == FailureMessageType && path != [] then [Failure(path, MessageOf(n), device)] else []
  }

  /** The failures `extract_failures` appends for the subtree at `n`. Every one
      has a non-empty path that extends the path given on entry. */
  function NodeFailures(n: TestNode, path: seq<string>, device: Option<string>): (r: seq<Failure>)
    decreases n, 1
  {
    var p := PathBelow(n, path);
    var d := DeviceBelow(n, device);
    OwnFailure(n, p, d) + ForestFailures(n.children, p, d)
  }

  /** The failures of a list of sibling subtrees, in list order. */
  function ForestFailures(ns: seq<TestNode>, path: seq<string>, device: Option<string>): (r: seq<Failure>)
    decreases ns, 0
  {
    if ns == [] then [] else NodeFailures(ns[0], path, device) + ForestFailures(ns[1..], path, device)
  }

  /** Every failure of a subtree has a non-empty path that extends the path
      given on entry: a Failure Message node with no bundle, suite or test
      case above it reports nothing. */
  lemma {:induction false} NodeFailurePaths(n: TestNode, path: seq<string>, device: Option<string>)
    ensures forall f :: f in NodeFailures(n, path, device) ==> f.path != [] && path <= f.path
    decreases n, 1
  {
    var p := PathBelow(n, path);
    var d := DeviceBelow(n, device);
    ForestFailurePaths(n.children, p, d);
    assert path <= p;
  }

  lemma {:induction false} ForestFailurePaths(ns: seq<TestNode>, path: seq<string>, device: Option<string>)
    ensures forall f :: f in ForestFailures(ns, path, device) ==> f.path != [] && path <= f.path
    decreases ns, 0
  {
    if ns != [] {
      NodeFailurePaths(ns[0], path, device);
      ForestFailurePaths(ns[1..], path, device);
    }
  }

  lemma AppendAssoc<T>(a: seq<T>, b: seq<T>, c: seq<T>)
    ensures (a + b) + c == a + (b + c)
  {
  }

  lemma {:induction false} ForestFailuresAppend(a: seq<TestNode>, b: seq<TestNode>, path: seq<string>, device: Option<string>)
    ensures ForestFailures(a + b, path, device) == ForestFailures(a, path, device) + ForestFailures(b, path, device)
    decreases |a|
  {
    if a == [] {
      assert a + b == b;
    } else {
      assert (a + b)[1..] == a[1..] + b;
      ForestFailuresAppend(a[1..], b, path, device);
    }
  }

  /** The failures of the first `i + 1` siblings extend those of the first `i`. */
  lemma ForestFailuresPrefix(ns: seq<TestNode>, i: nat, path: seq<string>, device: Option<string>)
    requires i < |ns|
    ensures ForestFailures(ns[..i + 1], path, device)
         == ForestFailures(ns[..i], path, device) + NodeFailures(ns[i], path, device)
  {
    assert ns[..i + 1] == ns[..i] + [ns[i]];
    ForestFailuresAppend(ns[..i], [ns[i]], path, device);
    assert [ns[i]][1..] == [];
  }

  /** `extract_failures(node, path, device_name, failures)`: the shared
      accumulator is threaded through the calls; the result is the list
      given on entry followed by the subtree's failures. */
  method ExtractFailures(node: TestNode, path: seq<string>, device: Option<string>, failures: seq<Failure>)
    returns (acc: seq<Failure>)
    ensures acc == failures + NodeFailures(node, path, device)
    decreases node
  {
    var currentDevice := device;
    if node.nodeType == DeviceType {
      currentDevice := Some(node.name);
    }
    var currentPath := path;
    if node.nodeType in HierarchyTypes {
      currentPath := path + [node.name];
    }
    assert currentPath == PathBelow(node, path) && currentDevice == DeviceBelow(node, device);
    acc := failures;
    if node.nodeType == FailureMessageType {
      var failureMessage := node.details.GetOr(node.name);
      if currentPath != [] {
        acc := acc + [Failure(currentPath, failureMessage, currentDevice)];
      }
    }
    assert acc == failures + OwnFailure(node, currentPath, currentDevice);
    ghost var own := acc;
    for i := 0 to |node.children|
      invariant acc == own + ForestFailures(node.children[..i], currentPath, currentDevice)
    {
      acc := ExtractFailures(node.children[i], currentPath, currentDevice, acc);
      ForestFailuresPrefix(node.children, i, currentPath, currentDevice);
      AppendAssoc(own, ForestFailures(node.children[..i], currentPath, currentDevice),
                  NodeFailures(node.children[i], currentPath, currentDevice));
    }
    assert node.children[..|node.children|] == node.children;
    AppendAssoc(failures, OwnFailure(node, currentPath, currentDevice),
                ForestFailures(node.children, currentPath, currentDevice));
  }

  // ---------------------------------------------------------------------
  // An independent description: failures as ancestor chains
  // ---------------------------------------------------------------------

  function Last(chain: seq<TestNode>): TestNode
    requires chain != []
  {
    chain[|chain| - 1]
  }

  /** A root-to-node chain: each node is a child of the one before it. */
  predicate IsDescent(chain: seq<TestNode>) {
    chain != [] && forall j :: 0 <= j < |chain| - 1 ==> chain[j + 1] in chain[j].children
  }

  /** `n` in front of every chain. */
  function Under(n: TestNode, chains: seq<seq<TestNode>>): (r: seq<seq<TestNode>>)
    ensures |r| == |chains|
    ensures forall i :: 0 <= i < |r| ==> r[i] == [n] + chains[i]
  {
    if chains == [] then [] else [[n] + chains[0]] + Under(n, chains[1..])
  }

  /** The chains from `n` down to each Failure Message node of its subtree,
      in depth-first pre-order with children in list order. */
  function Sites(n: TestNode): (r: seq<seq<TestNode>>)
    ensures forall i :: 0 <= i < |r| ==>
      IsDescent(r[i]) && r[i][0] == n && Last(r[i]).nodeType == FailureMessageType
    decreases n, 1
  {
    var below := ForestSites(n.children);
    var r := (if n.nodeType == FailureMessageType then [[n]] else []) + Under(n, below);
    assert forall i :: 0 <= i < |below| ==> below[i][0] in n.children;
    r
  }

  /** The chains of a list of siblings, one subtree after the other. */
  function ForestSites(ns: seq<TestNode>): (r: seq<seq<TestNode>>)
    ensures forall i :: 0 <= i < |r| ==>
      IsDescent(r[i]) && r[i][0] in ns && Last(r[i]).nodeType == FailureMessageType
    decreases ns, 0
  {
    if ns == [] then [] else Sites(ns[0]) + ForestSites(ns[1..])
  }

  /** The names of the bundles, suites and test cases on a chain, root first. */
  function TestPath(chain: seq<TestNode>): seq<string> {
    if chain == [] then []
    else (if chain[0].nodeType in HierarchyTypes then [chain[0].name] else []) + TestPath(chain[1..])
  }

  /** The name of the Device node nearest the end of the chain, or `device`
      when the chain has none. */
  function NearestDevice(chain: seq<TestNode>, device: Option<string>): Option<string>
    decreases |chain|
  {
    if chain == [] then device
    else if Last(chain).nodeType == DeviceType then Some(Last(chain).name)
    else NearestDevice(chain[..|chain| - 1], device)
  }

  /** The failure a chain reports below the path and device given on entry,
      if the path it ends up with is not empty. */
  function Report(chain: seq<TestNode>, path: seq<string>, device: Option<string>): seq<Failure> {
    var p := path + TestPath(chain);
    if chain == [] || p == [] then [] else [Failure(p, MessageOf(Last(chain)), NearestDevice(chain, device))]
  }

  function SiteFailures(chains: seq<seq<TestNode>>, path: seq<string>, device: Option<string>): seq<Failure> {
    if chains == [] then [] else Report(chains[0], path, device) + SiteFailures(chains[1..], path, device)
  }

  lemma {:induction false} SiteFailuresAppend(a: seq<seq<TestNode>>, b: seq<seq<TestNode>>, path: seq<string>, device: Option<string>)
    ensures SiteFailures(a + b, path, device) == SiteFailures(a, path, device) + SiteFailures(b, path, device)
    decreases |a|
  {
    if a == [] {
      assert a + b == b;
    } else {
      assert (a + b)[0] == a[0] && (a + b)[1..] == a[1..] + b;
      SiteFailuresAppend(a[1..], b, path, device);
      AppendAssoc(Report(a[0], path, device), SiteFailures(a[1..], path, device), SiteFailures(b, path, device));
    }
  }

  lemma {:induction false} NearestDeviceBelow(n: TestNode, chain: seq<TestNode>, device: Option<string>)
    ensures NearestDevice([n] + chain, device) == NearestDevice(chain, DeviceBelow(n, device))
    decreases |chain|
  {
    if chain == [] {
      assert ([n] + chain)[..0] == [];
    } else {
      assert ([n] + chain)[..|chain|] == [n] + chain[..|chain| - 1];
      NearestDeviceBelow(n, chain[..|chain| - 1], device);
    }
  }

  lemma ReportBelow(n: TestNode, chain: seq<TestNode>, path: seq<string>, device: Option<string>)
    requires chain != []
    ensures Report([n] + chain, path, device) == Report(chain, PathBelow(n, path), DeviceBelow(n, device))
  {
    var own := if n.nodeType in HierarchyTypes then [n.name] else [];
    assert ([n] + chain)[1..] == chain;
    assert TestPath([n] + chain) == own + TestPath(chain);
    assert path + TestPath([n] + chain) == PathBelow(n, path) + TestPath(chain);
    assert Last([n] + chain) == Last(chain);
    NearestDeviceBelow(n, chain, device);
  }

  lemma {:induction false} SiteFailuresUnder(n: TestNode, chains: seq<seq<TestNode>>, path: seq<string>, device: Option<string>)
    requires forall i :: 0 <= i < |chains| ==> chains[i] != []
    ensures SiteFailures(Under(n, chains), path, device) == SiteFailures(chains, PathBelow(n, path), DeviceBelow(n, device))
    decreases |chains|
  {
    if chains != [] {
      ReportBelow(n, chains[0], path, device);
      SiteFailuresUnder(n, chains[1..], path, device);
    }
  }

  /** The walk reports, in depth-first pre-order, one failure per Failure
      Message node whose path is non-empty: its path is the names of the
      bundle, suite and test-case nodes on the way down, its message the
      node's details (else its name), its device the nearest enclosing
      Device node (else the device given on entry). */
  lemma {:induction false} NodeFailuresAreSites(n: TestNode, path: seq<string>, device: Option<string>)
    ensures NodeFailures(n, path, device) == SiteFailures(Sites(n), path, device)
    decreases n, 1
  {
    var p := PathBelow(n, path);
    var d := DeviceBelow(n, device);
    var below := ForestSites(n.children);
    var own: seq<seq<TestNode>> := if n.nodeType == FailureMessageType then [[n]] else [];
    assert Sites(n) == own + Under(n, below);
    ForestFailuresAreSites(n.children, p, d);
    assert NodeFailures(n, path, device) == OwnFailure(n, p, d) + SiteFailures(below, p, d);
    SiteFailuresAppend(own, Under(n, below), path, device);
    SiteFailuresUnder(n, below, path, device);
    if n.nodeType == FailureMessageType {
      assert n.nodeType !in HierarchyTypes && n.nodeType != DeviceType;
      assert p == path && d == device;
      assert TestPath([n]) == [];
      assert NearestDevice([n], device) == device;
      assert Last([n]) == n;
      assert path + TestPath([n]) == path;
      assert Report([n], path, device) == OwnFailure(n, p, d);
      assert own[1..] == [];
      assert SiteFailures(own, path, device) == Report([n], path, device) + SiteFailures([], path, device);
    }
    assert SiteFailures(own, path, device) == OwnFailure(n, p, d);
  }

  lemma {:induction false} ForestFailuresAreSites(ns: seq<TestNode>, path: seq<string>, device: Option<string>)
    ensures ForestFailures(ns, path, device) == SiteFailures(ForestSites(ns), path, device)
    decreases ns, 0
  {
    if ns != [] {
      NodeFailuresAreSites(ns[0], path, device);
      ForestFailuresAreSites(ns[1..], path, device);
      SiteFailuresAppend(Sites(ns[0]), ForestSites(ns[1..]), path, device);
    }
  }

  // ---------------------------------------------------------------------
  // One result bundle
  // ---------------------------------------------------------------------

  /** The failures of every root, concatenated in `testNodes` order. */
  function AllFailures(roots: seq<TestNode>): (r: seq<Failure>)
  {
    if roots == [] then [] else NodeFailures(roots[0], [], None) + AllFailures(roots[1..])
  }

  lemma {:induction false} AllFailuresAppend(a: seq<TestNode>, b: seq<TestNode>)
    ensures AllFailures(a + b) == AllFailures(a) + AllFailures(b)
    decreases |a|
  {
    if a == [] {
      assert a + b == b;
    } else {
      assert (a + b)[0] == a[0] && (a + b)[1..] == a[1..] + b;
      AllFailuresAppend(a[1..], b);
      AppendAssoc(NodeFailures(a[0], [], None), AllFailures(a[1..]), AllFailures(b));
    }
  }

  /** A failure after device resolution. */
  function Resolve(f: Failure, deviceMap: map<string, string>): Failure {
    if Truthy(f.device) && f.device.value in deviceMap then f.(device := Some(deviceMap[f.device.value])) else f
  }

  /** The first loop of `process_xcresult`: each root's failures, extended
      onto the list in `testNodes` order. */
  method CollectFailures(roots: seq<TestNode>) returns (failures: seq<Failure>)
    ensures failures == AllFailures(roots)
  {
    failures := [];
    for k := 0 to |roots|
      invariant failures == AllFailures(roots[..k])
    {
      var nodeFailures := ExtractFailures(roots[k], [], None, []);
      assert nodeFailures == NodeFailures(roots[k], [], None);
      failures := failures + nodeFailures;
      AllFailuresAppend(roots[..k], [roots[k]]);
      assert [roots[k]][1..] == [];
      assert AllFailures([roots[k]]) == nodeFailures;
      assert roots[..k + 1] == roots[..k] + [roots[k]];
    }
    assert roots[..|roots|] == roots;
  }

  /** The second loop of `process_xcresult`: every failure whose device is a
      non-empty id in the table gets the table's label, in place. */
  method ResolveDevices(extracted: seq<Failure>, deviceMap: map<string, string>) returns (failures: seq<Failure>)
    ensures |failures| == |extracted|
    ensures forall j :: 0 <= j < |failures| ==> failures[j] == Resolve(extracted[j], deviceMap)
  {
    failures := extracted;
    for i := 0 to |failures|
      invariant |failures| == |extracted|
      invariant forall j :: 0 <= j < i ==> failures[j] == Resolve(extracted[j], deviceMap)
      invariant forall j :: i <= j < |failures| ==> failures[j] == extracted[j]
    {
      var device := failures[i].device;
      if device.Some? && device.value != "" && device.value in deviceMap {
        failures := failures[i := failures[i].(device := Some(deviceMap[device.value]))];
      }
    }
  }

  /** `process_xcresult` once the tool's output is decoded: no output gives
      no failures; otherwise every root's failures in order, then each
      failure's device replaced by its table label when it is non-empty and
      in the table, and nothing else touched. */
  method ProcessXcResult(data: Option<TestResults>) returns (failures: seq<Failure>)
    ensures data.None? ==> failures == []
    ensures data.Some? ==> |failures| == |AllFailures(data.value.testNodes)|
    ensures data.Some? ==> forall i :: 0 <= i < |failures| ==>
      var f := AllFailures(data.value.testNodes)[i];
      var deviceMap := DeviceMap(data.value.devices);
      && failures[i].path == f.path
      && failures[i].message == f.message
      && failures[i].device == (if Truthy(f.device) && f.device.value in deviceMap
                                then Some(deviceMap[f.device.value]) else f.device)
  {
    if data.None? {
      return [];
    }
    var results := data.value;
    var deviceMap := BuildDeviceMap(results.devices);
    var extracted := CollectFailures(results.testNodes);
    failures := ResolveDevices(extracted, deviceMap);
  }
}
