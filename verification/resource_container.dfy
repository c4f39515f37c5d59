/** The backend-agnostic part of an optimizer resource container
    (`AbstractResourceContainer`): initialisation from the container
    configuration, requesting a resource from a backend and merging the
    backend's startup facts, choosing the optimizing-service address, building
    the worker's command line, exporting configuration to the worker's
    environment, and the default status query.

    The Java class keeps its state in mutable fields; here that state is the
    immutable `Container` value, and every operation takes it as an argument
    (and `Init` returns the new one). */
module ResourceContainer {
  import opened Results
  import opened Text
  import opened PropertyNames
  import opened PropertyUtil
  import opened Resources
  import opened CommandLine

  /** The container's fields. Each is null (`None`) until `Init` sets it.
      `containerProperties` is the configuration as it was at `Init`; later
      changes to the caller's map are not modelled. */
  datatype Container = Container(
    containerName: Option<string>,
    containerProperties: Option<Config>,
    amsHome: Option<string>,
    amsOptimizingUrl: Option<string>)

  /** A container as constructed, before `Init`. */
  const Uninitialized: Container := Container(None, None, None, None)

  /** The state after `init`, and whether it returned or threw. */
  datatype InitResult = InitResult(state: Container, outcome: Outcome<Error>)

  // -----------------------------------------------------------------------
  // init, name
  // -----------------------------------------------------------------------

  /** `init(name, props)`. The name and the configuration are stored first;
      then the home directory and the optimizing-service address are read as
      required keys, in that order. A missing key makes `init` throw, and the
      fields already assigned stay assigned. */
  function Init(c: Container, name: string, props: Config): (r: InitResult)
    ensures r.state.containerName == Some(name)
    ensures r.state.containerProperties == Some(props)
    ensures r.outcome.Pass? <==> HasKey(props, AmsHome) && HasKey(props, AmsOptimizerUri)
    ensures r.outcome.Pass? ==>
      && r.state.amsHome == Lookup(props, AmsHome)
      && r.state.amsOptimizingUrl == Lookup(props, AmsOptimizerUri)
    ensures !HasKey(props, AmsHome) ==>
      && r.outcome == Fail(RequiredPropertyMissing(AmsHome))
      && r.state.amsHome == c.amsHome
      && r.state.amsOptimizingUrl == c.amsOptimizingUrl
    ensures HasKey(props, AmsHome) && !HasKey(props, AmsOptimizerUri) ==>
      && r.outcome == Fail(RequiredPropertyMissing(AmsOptimizerUri))
      && r.state.amsHome == Lookup(props, AmsHome)
      && r.state.amsOptimizingUrl == c.amsOptimizingUrl
  {
    var named := c.(containerName := Some(name), containerProperties := Some(props));
    match GetRequiredNotNull(props, AmsHome)
    case Failure(e) => InitResult(named, Fail(e))
    case Success(home) =>
      var homed := named.(amsHome := Some(home));
      match GetRequiredNotNull(props, AmsOptimizerUri)
      case Failure(e) => InitResult(homed, Fail(e))
      case Success(url) => InitResult(homed.(amsOptimizingUrl := Some(url)), Pass)
  }

  /** `name()`. */
  function Name(c: Container): Option<string> {
    c.containerName
  }

  /** After `init`, successful or not, `name()` is the name it was given. */
  lemma NameAfterInit(c: Container, name: string, props: Config)
    ensures Name(Init(c, name, props).state) == Some(name)
  {
  }

  /** Initialising twice: the second configuration replaces the first, and
      the state no longer depends on the first call at all when the second
      succeeds. */
  lemma InitOverwrites(c: Container, n1: string, p1: Config, n2: string, p2: Config)
    requires Init(Init(c, n1, p1).state, n2, p2).outcome.Pass?
    ensures Init(Init(c, n1, p1).state, n2, p2).state == Init(Uninitialized, n2, p2).state
  {
  }

  // -----------------------------------------------------------------------
  // requestResource
  // -----------------------------------------------------------------------

  /** The backend's `doScaleOut`: given the container and the resource, it
      either creates the worker and reports its startup facts, or fails. */
  type ScaleOut = (Container, Resource) -> Result<map<string, string>, Error>

  /** `requestResource(resource)`: scale out, then merge the reported facts
      into the resource's properties. A backend failure is passed on as it
      is, and then the resource is not changed. */
  function RequestResource(c: Container, r: Resource, doScaleOut: ScaleOut): (res: Result<Resource, Error>)
    ensures res.Success? <==> doScaleOut(c, r).Success?
    ensures res.Failure? ==> res.error == doScaleOut(c, r).error
    ensures res.Success? ==>
      var stats := doScaleOut(c, r).value;
      var props := res.value.properties;
      && res.value.resourceId == r.resourceId
      && res.value.groupName == r.groupName
      && res.value.threadCount == r.threadCount
      && props.Keys == r.properties.Keys + stats.Keys
      && (forall k :: k in stats ==> props[k] == stats[k])
      && (forall k :: k in r.properties && k !in stats ==> props[k] == r.properties[k])
  {
    match doScaleOut(c, r)
    case Failure(e) => Failure(e)
    case Success(stats) => Success(r.(properties := PutAll(r.properties, stats)))
  }

  /** No key the caller supplied is lost by a successful request, whatever
      the backend reports. */
  lemma RequestKeepsCallerKeys(c: Container, r: Resource, doScaleOut: ScaleOut, k: string)
    requires RequestResource(c, r, doScaleOut).Success?
    requires k in r.properties
    ensures k in RequestResource(c, r, doScaleOut).value.properties
  {
  }

  /** A backend that cannot create the worker, whatever it is asked for. */
  const RejectingBackend: ScaleOut :=
    (c: Container, r: Resource) => Failure(ScaleOutFailed("pod rejected"))

  /** A backend failure that has nothing to do with the configuration comes
      back from the request unchanged. */
  lemma RejectedScaleOutPassesThrough(c: Container, r: Resource)
    ensures RequestResource(c, r, RejectingBackend) == Failure(ScaleOutFailed("pod rejected"))
  {
  }

  // -----------------------------------------------------------------------
  // getOptimizingUri
  // -----------------------------------------------------------------------

  /** `getOptimizingUri(props)`: the resource's own address when it has a
      non-empty one, otherwise the container-wide address read by `init`
      (null before `init`). */
  function GetOptimizingUri(c: Container, props: map<string, string>): (r: Option<string>)
    ensures AmsOptimizerUri in props && props[AmsOptimizerUri] != "" ==> r == Some(props[AmsOptimizerUri])
    ensures AmsOptimizerUri !in props || props[AmsOptimizerUri] == "" ==> r == c.amsOptimizingUrl
  {
    if AmsOptimizerUri in props && props[AmsOptimizerUri] != "" then Some(props[AmsOptimizerUri])
    else c.amsOptimizingUrl
  }

  /** After a successful `init`, a resource without its own address gets
      exactly the address from the container configuration. */
  lemma OptimizingUriFallsBackToInitValue(c: Container, name: string, cfg: Config, props: map<string, string>)
    requires Init(c, name, cfg).outcome.Pass?
    requires AmsOptimizerUri !in props || props[AmsOptimizerUri] == ""
    ensures GetOptimizingUri(Init(c, name, cfg).state, props) == Lookup(cfg, AmsOptimizerUri)
    ensures Lookup(cfg, AmsOptimizerUri).Some?
  {
  }

  /** An address reported by the backend on scale-out becomes the address
      the resource's worker is pointed at. */
  lemma ReportedUriWins(c: Container, r: Resource, doScaleOut: ScaleOut)
    requires doScaleOut(c, r).Success?
    requires AmsOptimizerUri in doScaleOut(c, r).value
    requires doScaleOut(c, r).value[AmsOptimizerUri] != ""
    ensures GetOptimizingUri(c, RequestResource(c, r, doScaleOut).value.properties)
         == Some(doScaleOut(c, r).value[AmsOptimizerUri])
  {
  }

  // -----------------------------------------------------------------------
  // buildOptimizerStartupArgsString
  // -----------------------------------------------------------------------

  /** The worker's command-line flags. */
  const AmsUrlFlag: string := "a"
  const ThreadCountFlag: string := "p"
  const GroupNameFlag: string := "g"
  const HeartBeatFlag: string := "hb"
  const ExtendDiskFlag: string := "eds"
  const DiskPathFlag: string := "dsp"
  const MemorySizeFlag: string := "msz"
  const ResourceIdFlag: string := "id"

  /** Position of a flag in the fixed order of the command line. */
  function Rank(flag: string): nat {
    if flag == AmsUrlFlag then 0
    else if flag == ThreadCountFlag then 1
    else if flag == GroupNameFlag then 2
    else if flag == HeartBeatFlag then 3
    else if flag == ExtendDiskFlag then 4
    else if flag == DiskPathFlag then 5
    else if flag == MemorySizeFlag then 6
    else if flag == ResourceIdFlag then 7
    else 8
  }

  /** Every argument is one of the eight known flags and they come in the
      fixed order, so no flag occurs twice. */
  predicate InFixedOrder(args: seq<Arg>) {
    && (forall i :: 0 <= i < |args| ==> Rank(args[i].flag) < 8)
    && (forall i, j :: 0 <= i < j < |args| ==> Rank(args[i].flag) < Rank(args[j].flag))
  }

  /** Whether extended disk storage is switched on for the resource. */
  predicate ExtendDiskEnabled(props: map<string, string>) {
    PropertyAsBoolean(props, OptimizerExtendDiskStorage, OptimizerExtendDiskStorageDefault)
  }

  /** The first three arguments: address, thread count and group. */
  function HeaderArgs(c: Container, r: Resource): seq<Arg> {
    [Arg(AmsUrlFlag, Some(StringValueOf(GetOptimizingUri(c, r.properties)))),
     Arg(ThreadCountFlag, Some(IntToString(r.threadCount))),
     Arg(GroupNameFlag, Some(r.groupName))]
  }

  /** The heartbeat argument, present exactly when its key is. */
  function HeartbeatArgs(props: map<string, string>): seq<Arg> {
    if OptimizerHeartBeatInterval in props then [Arg(HeartBeatFlag, Some(props[OptimizerHeartBeatInterval]))]
    else []
  }

  /** The extended-disk-storage arguments for a storage path: the switch,
      the path, and the memory size when its key is present. */
  function DiskArgs(props: map<string, string>, path: string): seq<Arg> {
    [Arg(ExtendDiskFlag, None), Arg(DiskPathFlag, Some(path))]
    + (if OptimizerMemoryStorageSize in props then [Arg(MemorySizeFlag, Some(props[OptimizerMemoryStorageSize]))]
       else [])
  }

  /** The resource-id argument, present exactly when the id is non-empty. */
  function IdArgs(r: Resource): seq<Arg> {
    if r.resourceId != "" then [Arg(ResourceIdFlag, Some(r.resourceId))] else []
  }

  /** The command line as a list of arguments; it fails exactly when
      extended disk storage is on but no storage path is given. */
  function StartupArgs(c: Container, r: Resource): (res: Result<seq<Arg>, Error>)
    ensures res.Failure? <==> ExtendDiskEnabled(r.properties) && OptimizerDiskStoragePath !in r.properties
    ensures res.Failure? ==> res.error == PropertyNotFound(OptimizerDiskStoragePath)
    ensures res.Success? ==> 3 <= |res.value| && res.value[..3] == HeaderArgs(c, r)
  {
    var props := r.properties;
    if ExtendDiskEnabled(props) then
      match CheckAndGetProperty(props, OptimizerDiskStoragePath)
      case Failure(e) => Failure(e)
      case Success(path) => Success(HeaderArgs(c, r) + HeartbeatArgs(props) + DiskArgs(props, path) + IdArgs(r))
    else
      Success(HeaderArgs(c, r) + HeartbeatArgs(props) + IdArgs(r))
  }

  /** `args` is in the fixed order and its flags rank within `[lo, hi)`. */
  predicate RanksWithin(args: seq<Arg>, lo: nat, hi: nat) {
    && InFixedOrder(args)
    && (forall i :: 0 <= i < |args| ==> lo <= Rank(args[i].flag) < hi)
  }

  lemma JoinInOrder(xs: seq<Arg>, ys: seq<Arg>, lo: nat, mid: nat, hi: nat)
    requires lo <= mid <= hi
    requires RanksWithin(xs, lo, mid)
    requires RanksWithin(ys, mid, hi)
    ensures RanksWithin(xs + ys, lo, hi)
  {
    forall i | 0 <= i < |xs + ys|
      ensures lo <= Rank((xs + ys)[i].flag) < hi && Rank((xs + ys)[i].flag) < 8
    {
      if i < |xs| {
        assert (xs + ys)[i] == xs[i];
      } else {
        assert (xs + ys)[i] == ys[i - |xs|];
      }
    }
  }

  /** The arguments always come in the order address, threads, group,
      heartbeat, disk switch, disk path, memory size, id, each at most once. */
  lemma StartupArgsInFixedOrder(c: Container, r: Resource)
    requires StartupArgs(c, r).Success?
    ensures InFixedOrder(StartupArgs(c, r).value)
  {
    var props := r.properties;
    var front := HeaderArgs(c, r) + HeartbeatArgs(props);
    FrontInOrder(c, r);
    IdInOrder(r);
    if ExtendDiskEnabled(props) {
      var disk := DiskArgs(props, props[OptimizerDiskStoragePath]);
      DiskInOrder(props, props[OptimizerDiskStoragePath]);
      JoinInOrder(front, disk, 0, 4, 7);
      JoinInOrder(front + disk, IdArgs(r), 0, 7, 8);
      assert StartupArgs(c, r).value == front + disk + IdArgs(r);
    } else {
      JoinInOrder(front, IdArgs(r), 0, 4, 8);
      assert StartupArgs(c, r).value == front + IdArgs(r);
    }
  }

  lemma FrontInOrder(c: Container, r: Resource)
    ensures RanksWithin(HeaderArgs(c, r) + HeartbeatArgs(r.properties), 0, 4)
  {
  }

  lemma DiskInOrder(props: map<string, string>, path: string)
    ensures RanksWithin(DiskArgs(props, path), 4, 7)
  {
  }

  lemma IdInOrder(r: Resource)
    ensures RanksWithin(IdArgs(r), 7, 8)
  {
  }

  /** The text every command line begins with. */
  function Header(c: Container, r: Resource): string {
    " -a " + StringValueOf(GetOptimizingUri(c, r.properties))
    + " -p " + IntToString(r.threadCount)
    + " -g " + r.groupName
  }

  /** `buildOptimizerStartupArgsString(resource)`, appending piece by piece
      as the Java method does. */
  function BuildOptimizerStartupArgsString(c: Container, r: Resource): (res: Result<string, Error>)
    ensures res.Failure? <==> ExtendDiskEnabled(r.properties) && OptimizerDiskStoragePath !in r.properties
    ensures res.Failure? ==> res.error == PropertyNotFound(OptimizerDiskStoragePath)
    ensures res.Success? ==> StartsWith(res.value, Header(c, r))
    ensures res.Success? && r.resourceId != "" ==> EndsWith(res.value, " -id " + r.resourceId)
  {
    var props := r.properties;
    var s1 := UpToHeartbeat(c, r);
    if ExtendDiskEnabled(props) then
      match CheckAndGetProperty(props, OptimizerDiskStoragePath)
      case Failure(e) => Failure(e)
      case Success(path) =>
        var s2 := s1 + " -eds -dsp " + path;
        var s3 :=
          if OptimizerMemoryStorageSize in props then s2 + " -msz " + props[OptimizerMemoryStorageSize]
          else s2;
        Success(AppendResourceId(s3, r.resourceId))
    else
      Success(AppendResourceId(s1, r.resourceId))
  }

  /** The last step of the builder: the id, when there is one. */
  function AppendResourceId(s: string, resourceId: string): (res: string)
    ensures StartsWith(res, s)
    ensures resourceId != "" ==> EndsWith(res, " -id " + resourceId)
    ensures resourceId != "" ==> |res| == |s| + |" -id " + resourceId|
    ensures resourceId == "" ==> res == s
  {
    if resourceId != "" then s + " -id " + resourceId else s
  }

  /** The string the builder produces is the rendering of the argument list. */
  lemma BuildRendersStartupArgs(c: Container, r: Resource)
    ensures BuildOptimizerStartupArgsString(c, r).Success? <==> StartupArgs(c, r).Success?
    ensures BuildOptimizerStartupArgsString(c, r).Success? ==>
      BuildOptimizerStartupArgsString(c, r).value == Render(StartupArgs(c, r).value)
  {
    var props := r.properties;
    if ExtendDiskEnabled(props) && OptimizerDiskStoragePath in props {
      var path := props[OptimizerDiskStoragePath];
      var s3 := Render(HeaderArgs(c, r) + HeartbeatArgs(props) + DiskArgs(props, path));
      RenderThroughDisk(c, r, path);
      RenderWithId(HeaderArgs(c, r) + HeartbeatArgs(props) + DiskArgs(props, path), r);
      assert StartupArgs(c, r) == Success(HeaderArgs(c, r) + HeartbeatArgs(props) + DiskArgs(props, path) + IdArgs(r));
      assert BuildOptimizerStartupArgsString(c, r) == Success(AppendResourceId(s3, r.resourceId));
    } else if !ExtendDiskEnabled(props) {
      var s1 := Render(HeaderArgs(c, r) + HeartbeatArgs(props));
      RenderThroughHeartbeat(c, r);
      RenderWithId(HeaderArgs(c, r) + HeartbeatArgs(props), r);
      assert StartupArgs(c, r) == Success(HeaderArgs(c, r) + HeartbeatArgs(props) + IdArgs(r));
      assert BuildOptimizerStartupArgsString(c, r) == Success(AppendResourceId(s1, r.resourceId));
    }
  }

  /** The builder's text after the heartbeat step: the mandatory part, then
      ` -hb <interval>` when the key is present. */
  function UpToHeartbeat(c: Container, r: Resource): string {
    if OptimizerHeartBeatInterval in r.properties then Header(c, r) + " -hb " + r.properties[OptimizerHeartBeatInterval]
    else Header(c, r)
  }

  lemma RenderThroughHeartbeat(c: Container, r: Resource)
    ensures Render(HeaderArgs(c, r) + HeartbeatArgs(r.properties)) == UpToHeartbeat(c, r)
  {
    RenderHeader(c, r);
    RenderOptional(HeartbeatArgs(r.properties));
    RenderConcat(HeaderArgs(c, r), HeartbeatArgs(r.properties));
  }

  lemma RenderThroughDisk(c: Container, r: Resource, path: string)
    ensures Render(HeaderArgs(c, r) + HeartbeatArgs(r.properties) + DiskArgs(r.properties, path)) ==
      var s2 := UpToHeartbeat(c, r) + " -eds -dsp " + path;
      if OptimizerMemoryStorageSize in r.properties then s2 + " -msz " + r.properties[OptimizerMemoryStorageSize] else s2
  {
    RenderThroughHeartbeat(c, r);
    RenderDisk(r.properties, path);
    RenderConcat(HeaderArgs(c, r) + HeartbeatArgs(r.properties), DiskArgs(r.properties, path));
  }

  lemma RenderWithId(args: seq<Arg>, r: Resource)
    ensures Render(args + IdArgs(r)) == AppendResourceId(Render(args), r.resourceId)
  {
    RenderOptional(IdArgs(r));
    RenderConcat(args, IdArgs(r));
  }

  lemma RenderHeader(c: Container, r: Resource)
    ensures Render(HeaderArgs(c, r)) == Header(c, r)
  {
    var head := HeaderArgs(c, r);
    RenderConcat([head[0]], [head[1], head[2]]);
    RenderConcat([head[1]], [head[2]]);
    assert head == [head[0]] + [head[1], head[2]];
    RenderSingle(head[0]);
    RenderSingle(head[1]);
    RenderSingle(head[2]);
  }

  lemma RenderSingle(a: Arg)
    ensures Render([a]) == RenderArg(a)
  {
  }

  lemma RenderOptional(args: seq<Arg>)
    requires |args| <= 1
    ensures |args| == 1 ==> Render(args) == RenderArg(args[0])
    ensures |args| == 0 ==> Render(args) == ""
  {
  }

  lemma RenderDisk(props: map<string, string>, path: string)
    ensures Render(DiskArgs(props, path)) ==
      " -eds -dsp " + path
      + (if OptimizerMemoryStorageSize in props then " -msz " + props[OptimizerMemoryStorageSize] else "")
  {
    var eds := Arg(ExtendDiskFlag, None);
    var dsp := Arg(DiskPathFlag, Some(path));
    var memory :=
      if OptimizerMemoryStorageSize in props then [Arg(MemorySizeFlag, Some(props[OptimizerMemoryStorageSize]))]
      else [];
    assert DiskArgs(props, path) == [eds] + [dsp] + memory;
    RenderConcat([eds] + [dsp], memory);
    RenderConcat([eds], [dsp]);
    RenderSingle(eds);
    RenderSingle(dsp);
    RenderOptional(memory);
  }

  // -----------------------------------------------------------------------
  // What the command line contains
  // -----------------------------------------------------------------------

  lemma HasFlagConcat(xs: seq<Arg>, ys: seq<Arg>, flag: string)
    ensures HasFlag(xs + ys, flag) <==> HasFlag(xs, flag) || HasFlag(ys, flag)
  {
    if HasFlag(xs + ys, flag) {
      var i :| 0 <= i < |xs + ys| && (xs + ys)[i].flag == flag;
      if i >= |xs| {
        assert ys[i - |xs|].flag == flag;
      }
    }
    if HasFlag(xs, flag) {
      var i :| 0 <= i < |xs| && xs[i].flag == flag;
      assert (xs + ys)[i] == xs[i];
    }
    if HasFlag(ys, flag) {
      var i :| 0 <= i < |ys| && ys[i].flag == flag;
      assert (xs + ys)[|xs| + i] == ys[i];
    }
  }

  /** Which flags each part of the command line carries. */
  lemma FlagsOfParts(c: Container, r: Resource, path: string, flag: string)
    ensures HasFlag(HeaderArgs(c, r), flag) <==> flag in {AmsUrlFlag, ThreadCountFlag, GroupNameFlag}
    ensures HasFlag(HeartbeatArgs(r.properties), flag) <==>
      flag == HeartBeatFlag && OptimizerHeartBeatInterval in r.properties
    ensures HasFlag(DiskArgs(r.properties, path), flag) <==>
      flag == ExtendDiskFlag || flag == DiskPathFlag
      || (flag == MemorySizeFlag && OptimizerMemoryStorageSize in r.properties)
    ensures HasFlag(IdArgs(r), flag) <==> flag == ResourceIdFlag && r.resourceId != ""
  {
    var head := HeaderArgs(c, r);
    if flag in {AmsUrlFlag, ThreadCountFlag, GroupNameFlag} {
      assert head[Rank(flag)].flag == flag;
    }
    var disk := DiskArgs(r.properties, path);
    if flag == ExtendDiskFlag {
      assert disk[0].flag == flag;
    } else if flag == DiskPathFlag {
      assert disk[1].flag == flag;
    } else if flag == MemorySizeFlag && OptimizerMemoryStorageSize in r.properties {
      assert disk[2].flag == flag;
    }
    if flag == HeartBeatFlag && OptimizerHeartBeatInterval in r.properties {
      assert HeartbeatArgs(r.properties)[0].flag == flag;
    }
    if flag == ResourceIdFlag && r.resourceId != "" {
      assert IdArgs(r)[0].flag == flag;
    }
  }

  /** Which flags the whole command line carries, when it can be built. */
  lemma FlagsOfStartupArgs(c: Container, r: Resource, flag: string)
    requires StartupArgs(c, r).Success?
    ensures HasFlag(StartupArgs(c, r).value, flag) <==>
      || flag in {AmsUrlFlag, ThreadCountFlag, GroupNameFlag}
      || (flag == HeartBeatFlag && OptimizerHeartBeatInterval in r.properties)
      || (flag in {ExtendDiskFlag, DiskPathFlag} && ExtendDiskEnabled(r.properties))
      || (flag == MemorySizeFlag && ExtendDiskEnabled(r.properties) && OptimizerMemoryStorageSize in r.properties)
      || (flag == ResourceIdFlag && r.resourceId != "")
  {
    var props := r.properties;
    var head := HeaderArgs(c, r);
    var hb := HeartbeatArgs(props);
    var id := IdArgs(r);
    HasFlagConcat(head, hb, flag);
    if ExtendDiskEnabled(props) {
      var path := props[OptimizerDiskStoragePath];
      FlagsOfParts(c, r, path, flag);
      HasFlagConcat(head + hb, DiskArgs(props, path), flag);
      HasFlagConcat(head + hb + DiskArgs(props, path), id, flag);
    } else {
      FlagsOfParts(c, r, "", flag);
      HasFlagConcat(head + hb, id, flag);
    }
  }

  /** `-hb` is on the command line exactly when the heartbeat key is
      present (whatever its value, even empty), and carries that value. */
  lemma HeartbeatArgIffKeyPresent(c: Container, r: Resource)
    requires StartupArgs(c, r).Success?
    ensures HasFlag(StartupArgs(c, r).value, HeartBeatFlag) <==> OptimizerHeartBeatInterval in r.properties
    ensures OptimizerHeartBeatInterval in r.properties ==>
      Arg(HeartBeatFlag, Some(r.properties[OptimizerHeartBeatInterval])) in StartupArgs(c, r).value
  {
    FlagsOfStartupArgs(c, r, HeartBeatFlag);
    var props := r.properties;
    if OptimizerHeartBeatInterval in props {
      var args := StartupArgs(c, r).value;
      assert args[3] == HeartbeatArgs(props)[0];
    }
  }

  /** `-eds -dsp path` is on the command line exactly when extended disk
      storage is switched on, taking its default into account, and then
      `path` is the configured storage path. */
  lemma ExtendDiskArgsIffEnabled(c: Container, r: Resource)
    requires StartupArgs(c, r).Success?
    ensures HasFlag(StartupArgs(c, r).value, ExtendDiskFlag) <==> ExtendDiskEnabled(r.properties)
    ensures HasFlag(StartupArgs(c, r).value, DiskPathFlag) <==> ExtendDiskEnabled(r.properties)
    ensures ExtendDiskEnabled(r.properties) ==>
      && OptimizerDiskStoragePath in r.properties
      && Arg(ExtendDiskFlag, None) in StartupArgs(c, r).value
      && Arg(DiskPathFlag, Some(r.properties[OptimizerDiskStoragePath])) in StartupArgs(c, r).value
  {
    FlagsOfStartupArgs(c, r, ExtendDiskFlag);
    FlagsOfStartupArgs(c, r, DiskPathFlag);
    var props := r.properties;
    if ExtendDiskEnabled(props) {
      var args := StartupArgs(c, r).value;
      var before := HeaderArgs(c, r) + HeartbeatArgs(props);
      var disk := DiskArgs(props, props[OptimizerDiskStoragePath]);
      assert args == before + disk + IdArgs(r);
      assert args[|before|] == disk[0];
      assert args[|before| + 1] == disk[1];
    }
  }

  /** `-msz` is on the command line exactly when extended disk storage is on
      and the memory-size key is present; so never without `-eds`. */
  lemma MemorySizeArgOnlyWithExtendDisk(c: Container, r: Resource)
    requires StartupArgs(c, r).Success?
    ensures HasFlag(StartupArgs(c, r).value, MemorySizeFlag) <==>
      ExtendDiskEnabled(r.properties) && OptimizerMemoryStorageSize in r.properties
    ensures HasFlag(StartupArgs(c, r).value, MemorySizeFlag) ==>
      && HasFlag(StartupArgs(c, r).value, ExtendDiskFlag)
      && Arg(MemorySizeFlag, Some(r.properties[OptimizerMemoryStorageSize])) in StartupArgs(c, r).value
  {
    FlagsOfStartupArgs(c, r, MemorySizeFlag);
    FlagsOfStartupArgs(c, r, ExtendDiskFlag);
    var props := r.properties;
    if ExtendDiskEnabled(props) && OptimizerMemoryStorageSize in props {
      var args := StartupArgs(c, r).value;
      var before := HeaderArgs(c, r) + HeartbeatArgs(props);
      var disk := DiskArgs(props, props[OptimizerDiskStoragePath]);
      assert args == before + disk + IdArgs(r);
      assert args[|before| + 2] == disk[2];
    }
  }

  /** `-id` is on the command line exactly when the resource id is
      non-empty, and then it is the last argument and carries the id. */
  lemma ResourceIdArgLastIffNonEmpty(c: Container, r: Resource)
    requires StartupArgs(c, r).Success?
    ensures HasFlag(StartupArgs(c, r).value, ResourceIdFlag) <==> r.resourceId != ""
    ensures r.resourceId != "" ==>
      StartupArgs(c, r).value[|StartupArgs(c, r).value| - 1] == Arg(ResourceIdFlag, Some(r.resourceId))
  {
    FlagsOfStartupArgs(c, r, ResourceIdFlag);
  }

  /** Every argument appears, rendered, in the built string. */
  lemma ArgsAppearInString(c: Container, r: Resource, i: nat)
    requires StartupArgs(c, r).Success?
    requires i < |StartupArgs(c, r).value|
    ensures BuildOptimizerStartupArgsString(c, r).Success?
    ensures Contains(BuildOptimizerStartupArgsString(c, r).value, RenderArg(StartupArgs(c, r).value[i]))
  {
    BuildRendersStartupArgs(c, r);
    RenderedArgAppears(StartupArgs(c, r).value, i);
  }

  /** The configuration of the examples below: a home directory and an
      optimizing-service address. */
  const ExampleConfig: Config := [(AmsHome, "/opt/ams"), (AmsOptimizerUri, "thrift://h:1260")]

  /** The container the examples below use; `ExampleContainerIsInitialized`
      shows it is the state a successful `init` with `ExampleConfig` leaves. */
  const ExampleContainer: Container :=
    Container(Some("local"), Some(ExampleConfig), Some("/opt/ams"), Some("thrift://h:1260"))

  lemma ExampleContainerIsInitialized()
    ensures Init(Uninitialized, "local", ExampleConfig) == InitResult(ExampleContainer, Pass)
  {
    assert ExampleConfig[0].0 == AmsHome && ExampleConfig[1].0 == AmsOptimizerUri;
    assert HasKey(ExampleConfig, AmsHome) && HasKey(ExampleConfig, AmsOptimizerUri);
    LookupFindsEntry(ExampleConfig, 0);
    LookupFindsEntry(ExampleConfig, 1);
  }

  /** A group name that happens to contain flag-like text. */
  const FlagLikeGroupResource: Resource := Resource("", "g -hb 5", 4, map[])

  /** On the string itself the converse fails: values are appended without
      quoting, so a group name can carry text that reads as a heartbeat flag
      although no heartbeat key is set. */
  lemma HeartbeatTextWithoutHeartbeatKey()
    ensures OptimizerHeartBeatInterval !in FlagLikeGroupResource.properties
    ensures BuildOptimizerStartupArgsString(ExampleContainer, FlagLikeGroupResource).Success?
    ensures Contains(BuildOptimizerStartupArgsString(ExampleContainer, FlagLikeGroupResource).value, " -hb 5")
  {
    FlagLikeGroupStartupArgs();
    ContainsPiece(" -a thrift://h:1260 -p 4 -g g", " -hb 5", "");
    assert " -a thrift://h:1260 -p 4 -g g" + " -hb 5" + "" == " -a thrift://h:1260 -p 4 -g g -hb 5";
  }

  lemma FlagLikeGroupStartupArgs()
    ensures BuildOptimizerStartupArgsString(ExampleContainer, FlagLikeGroupResource)
         == Success(" -a thrift://h:1260 -p 4 -g g -hb 5")
  {
    ExampleHeader(FlagLikeGroupResource);
    BuildHeaderOnly(ExampleContainer, FlagLikeGroupResource);
    assert " -a thrift://h:1260 -p 4 -g " + "g -hb 5" == " -a thrift://h:1260 -p 4 -g g -hb 5";
  }

  /** A resource with no properties. */
  const MinimalResource: Resource := Resource("", "g1", 4, map[])

  /** A resource with no properties gets only the three mandatory arguments. */
  lemma MinimalStartupArgs()
    ensures BuildOptimizerStartupArgsString(ExampleContainer, MinimalResource)
         == Success(" -a thrift://h:1260 -p 4 -g g1")
  {
    ExampleHeader(MinimalResource);
    BuildHeaderOnly(ExampleContainer, MinimalResource);
    assert " -a thrift://h:1260 -p 4 -g " + "g1" == " -a thrift://h:1260 -p 4 -g g1";
  }

  /** The mandatory arguments of a four-thread resource without its own
      address, on the example container. */
  lemma ExampleHeader(r: Resource)
    requires r.threadCount == 4 && AmsOptimizerUri !in r.properties
    ensures Header(ExampleContainer, r) == " -a thrift://h:1260 -p 4 -g " + r.groupName
  {
    assert IntToString(4) == "4" by {
      assert NatToString(4) == [DigitChar(4)];
    }
  }

  /** The built string for a resource with no heartbeat, no extended disk
      storage and no id: the mandatory arguments alone. */
  lemma BuildHeaderOnly(c: Container, r: Resource)
    requires !ExtendDiskEnabled(r.properties)
    requires OptimizerHeartBeatInterval !in r.properties && r.resourceId == ""
    ensures BuildOptimizerStartupArgsString(c, r) == Success(Header(c, r))
  {
  }

  /** A resource asking for extended disk storage with a path and a memory
      size. */
  const ExtendDiskResource: Resource :=
    Resource("", "g1", 4, map[OptimizerExtendDiskStorage := "true", OptimizerDiskStoragePath := "/data",
                              OptimizerMemoryStorageSize := "2048"])

  /** Extended disk storage adds the switch, the path and the memory size. */
  lemma ExtendDiskStartupArgs()
    ensures BuildOptimizerStartupArgsString(ExampleContainer, ExtendDiskResource)
         == Success(" -a thrift://h:1260 -p 4 -g g1 -eds -dsp /data -msz 2048")
  {
    ExtendDiskResourceProperties();
    ExtendDiskResourceHeader();
    BuildWithDiskStorage(ExampleContainer, ExtendDiskResource);
    assert " -a thrift://h:1260 -p 4 -g g1" + " -eds -dsp " + "/data" + " -msz " + "2048"
        == " -a thrift://h:1260 -p 4 -g g1 -eds -dsp /data -msz 2048";
  }

  lemma ExtendDiskResourceProperties()
    ensures ExtendDiskEnabled(ExtendDiskResource.properties)
    ensures OptimizerHeartBeatInterval !in ExtendDiskResource.properties
    ensures ExtendDiskResource.properties[OptimizerDiskStoragePath] == "/data"
    ensures ExtendDiskResource.properties[OptimizerMemoryStorageSize] == "2048"
  {
  }

  lemma ExtendDiskResourceHeader()
    ensures Header(ExampleContainer, ExtendDiskResource) == " -a thrift://h:1260 -p 4 -g g1"
  {
    ExampleHeader(ExtendDiskResource);
  }

  /** The built string for a resource with extended disk storage, a memory
      size, no heartbeat and no id. */
  lemma BuildWithDiskStorage(c: Container, r: Resource)
    requires ExtendDiskEnabled(r.properties)
    requires OptimizerDiskStoragePath in r.properties && OptimizerMemoryStorageSize in r.properties
    requires OptimizerHeartBeatInterval !in r.properties && r.resourceId == ""
    ensures BuildOptimizerStartupArgsString(c, r) ==
      Success(Header(c, r) + " -eds -dsp " + r.properties[OptimizerDiskStoragePath]
              + " -msz " + r.properties[OptimizerMemoryStorageSize])
  {
  }

  // -----------------------------------------------------------------------
  // exportSystemProperties
  // -----------------------------------------------------------------------

  /** Whether a configuration key is to be exported to the environment. */
  predicate IsExportKey(key: string) {
    StartsWith(key, ExportPropertyPrefix)
  }

  /** The environment variable an export key names: the key without the
      prefix. */
  function VariableName(key: string): (name: string)
    requires IsExportKey(key)
    ensures ExportPropertyPrefix + name == key
  {
    DropPrefix(key, ExportPropertyPrefix)
  }

  /** The shell statement exporting one configuration entry. */
  function ExportLine(key: string, value: string): string
    requires IsExportKey(key)
  {
    "export " + VariableName(key) + "=" + value
  }

  /** The positions, among the first `n` entries, of the entries to export,
      in increasing order: exactly the entries whose key has the prefix. */
  function ExportIndices(cfg: seq<(string, string)>, n: nat): (sel: seq<nat>)
    requires n <= |cfg|
    ensures forall m :: 0 <= m < |sel| ==> sel[m] < n && IsExportKey(cfg[sel[m]].0)
    ensures forall m, m' :: 0 <= m < m' < |sel| ==> sel[m] < sel[m']
    ensures forall i :: 0 <= i < n && IsExportKey(cfg[i].0) ==> i in sel
  {
    if n == 0 then []
    else ExportIndices(cfg, n - 1) + (if IsExportKey(cfg[n - 1].0) then [n - 1] else [])
  }

  /** `exportSystemProperties()`: one `export NAME=value` line per
      configuration entry whose key has the export prefix, in the order of
      the configuration, and nothing for any other entry; no lines at all
      before `init`. */
  method ExportSystemProperties(c: Container) returns (cmds: seq<string>)
    ensures c.containerProperties.None? ==> cmds == []
    ensures c.containerProperties.Some? ==>
      var cfg := c.containerProperties.value;
      var sel := ExportIndices(cfg, |cfg|);
      && |cmds| == |sel|
      && forall m :: 0 <= m < |cmds| ==> cmds[m] == ExportLine(cfg[sel[m]].0, cfg[sel[m]].1)
  {
    cmds := [];
    if c.containerProperties.Some? {
      var cfg := c.containerProperties.value;
      var i := 0;
      while i < |cfg|
        invariant i <= |cfg|
        invariant |cmds| == |ExportIndices(cfg, i)|
        invariant forall m :: 0 <= m < |cmds| ==>
          cmds[m] == ExportLine(cfg[ExportIndices(cfg, i)[m]].0, cfg[ExportIndices(cfg, i)[m]].1)
      {
        var (key, value) := cfg[i];
        if StartsWith(key, ExportPropertyPrefix) {
          var name := key[|ExportPropertyPrefix|..];
          cmds := cmds + ["export " + name + "=" + value];
        }
        i := i + 1;
      }
    }
  }

  /** The positions, among the first `n` entries, whose key has the
      export prefix. */
  function ExportPositions(cfg: seq<(string, string)>, n: nat): set<nat>
    requires n <= |cfg|
  {
    set i: nat | i < n && IsExportKey(cfg[i].0)
  }

  /** The number of lines is the number of entries with the prefix. */
  lemma {:induction false} ExportIndicesCount(cfg: seq<(string, string)>, n: nat)
    requires n <= |cfg|
    ensures |ExportIndices(cfg, n)| == |ExportPositions(cfg, n)|
  {
    if n > 0 {
      ExportIndicesCount(cfg, n - 1);
      ExportPositionsStep(cfg, n);
    }
  }

  lemma ExportPositionsStep(cfg: seq<(string, string)>, n: nat)
    requires 0 < n <= |cfg|
    ensures |ExportPositions(cfg, n)| ==
      |ExportPositions(cfg, n - 1)| + (if IsExportKey(cfg[n - 1].0) then 1 else 0)
  {
    var before := ExportPositions(cfg, n - 1);
    if IsExportKey(cfg[n - 1].0) {
      assert ExportPositions(cfg, n) == before + {n - 1};
    } else {
      assert ExportPositions(cfg, n) == before;
    }
  }

  // -----------------------------------------------------------------------
  // getStatus
  // -----------------------------------------------------------------------

  /** The status record of a resource. Its definition belongs to the
      platform's resource API, which is not part of this model. */
  type ResourceStatus

  /** `getStatus(resourceId)`: the base container knows no status for any
      resource and answers null; backends override it. */
  function GetStatus(c: Container, resourceId: string): (r: Option<ResourceStatus>)
    ensures r == None
  {
    None
  }
}
