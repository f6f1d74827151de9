/**
 * How the component controller turns a component's lifecycle actions into
 * the kb-agent sidecar (pkg/controller/component/kbagent.go): the fixed-order
 * catalog of action and probe descriptors, the check that all exec actions
 * agree on one image and one container, and the container appended to the pod.
 */
module KBAgentComponent {
  import opened Wrappers
  import opened AppsTypes
  import Proto

  const KBAgentContainerName := "kbagent"
  const KBAgentInitContainerName := "init-kbagent"
  const KBAgentCommand := "/bin/kbagent"
  const KBAgentPortName := "http"
  const KBAgentSharedMountPath := "/kubeblocks"
  const KBAgentCommandOnSharedMount := "/kubeblocks/kbagent"
  const KBAgentPort := 3501
  const SharedVolumeMount := VolumeMount("kubeblocks", KBAgentSharedMountPath)

  // ---------------------------------------------------------------------------
  // Action and probe descriptors

  /** An action the agent can run: present and an exec action. */
  predicate Buildable(action: Option<Action>)
  {
    action.Some? && action.value.exec.Some?
  }

  /**
   * The descriptor `a` carries `name` and the command, arguments, container,
   * timeout and retry policy of `src`; the exec environment is not carried.
   */
  predicate CopiedFrom(a: Proto.Action, src: Action, name: string)
    requires src.exec.Some?
  {
    && a.name == name
    && a.exec == Some(Proto.ExecAction(src.exec.value.command, src.exec.value.args, [], src.exec.value.container))
    && a.timeoutSeconds == src.timeoutSeconds
    && (a.retryPolicy.Some? <==> src.retryPolicy.Some?)
    && (src.retryPolicy.Some? ==>
          a.retryPolicy.value == Proto.RetryPolicy(src.retryPolicy.value.maxRetries, src.retryPolicy.value.retryInterval))
  }

  function BuildAction4KBAgentLow(action: Option<Action>, name: string): (r: Option<Proto.Action>)
    ensures r.Some? <==> Buildable(action)
    ensures r.Some? ==> CopiedFrom(r.value, action.value, name)
  {
    if action.None? || action.value.exec.None? then None
    else
      var src := action.value;
      var exec := src.exec.value;
      var a := Proto.Action(name, Some(Proto.ExecAction(exec.command, exec.args, [], exec.container)), src.timeoutSeconds, None);
      if src.retryPolicy.Some? then
        Some(a.(retryPolicy := Some(Proto.RetryPolicy(src.retryPolicy.value.maxRetries, src.retryPolicy.value.retryInterval))))
      else Some(a)
  }

  /** The custom action of a handler, if both are present. */
  function CustomHandler(handler: Option<LifecycleActionHandler>): Option<Action>
  {
    if handler.Some? then handler.value.customHandler else None
  }

  function BuildAction4KBAgent(handler: Option<LifecycleActionHandler>, name: string): (r: Option<Proto.Action>)
    ensures r.Some? <==> handler.Some? && Buildable(handler.value.customHandler)
    ensures r.Some? ==> CopiedFrom(r.value, handler.value.customHandler.value, name)
  {
    if handler.None? then None
    else BuildAction4KBAgentLow(handler.value.customHandler, name)
  }

  /** buildAction4KBAgent is buildAction4KBAgentLow on the handler's custom action. */
  lemma BuildAction4KBAgentViaLow(handler: Option<LifecycleActionHandler>, name: string)
    ensures BuildAction4KBAgent(handler, name) == BuildAction4KBAgentLow(CustomHandler(handler), name)
  {
  }

  function BuildProbe4KBAgent(probe: Option<Probe>, name: string): (r: (Option<Proto.Action>, Option<Proto.Probe>))
    ensures r.0.Some? <==> probe.Some? && probe.value.action.exec.Some?
    ensures r.1.Some? <==> r.0.Some?
    ensures r.0.Some? ==> CopiedFrom(r.0.value, probe.value.action, name)
    ensures r.1.Some? ==> r.1.value == Proto.Probe(name, probe.value.initialDelaySeconds, probe.value.periodSeconds,
                                                   probe.value.successThreshold, probe.value.failureThreshold, None)
  {
    if probe.None? || probe.value.action.exec.None? then (None, None)
    else
      var p := probe.value;
      var a := BuildAction4KBAgentLow(Some(p.action), name);
      (a, Some(Proto.Probe(name, p.initialDelaySeconds, p.periodSeconds, p.successThreshold, p.failureThreshold, None)))
  }

  // ---------------------------------------------------------------------------
  // The catalog

  /** The names of the actions, in the order the catalog lists them. */
  const ActionNames: seq<string> := [
    "postProvision", "preTerminate", "switchover", "memberJoin", "memberLeave", "readonly",
    "readwrite", "dataDump", "dataLoad", "reconfigure", "accountProvision", "roleProbe"]

  function SwitchoverAction(s: Option<ComponentSwitchover>): Option<Action>
  {
    if s.Some? then s.value.withoutCandidate else None
  }

  function RoleProbeAction(p: Option<Probe>): Option<Action>
  {
    if p.Some? then Some(p.value.action) else None
  }

  /** The action each name of ActionNames stands for. */
  function Slots(la: LifecycleActions): (slots: seq<Option<Action>>)
    ensures |slots| == |ActionNames|
  {
    [CustomHandler(la.postProvision), CustomHandler(la.preTerminate), SwitchoverAction(la.switchover),
     CustomHandler(la.memberJoin), CustomHandler(la.memberLeave), CustomHandler(la.readonly),
     CustomHandler(la.readwrite), CustomHandler(la.dataDump), CustomHandler(la.dataLoad),
     CustomHandler(la.reconfigure), CustomHandler(la.accountProvision), RoleProbeAction(la.roleProbe)]
  }

  /** Each slot, with its name, spelled out. */
  lemma SlotsAt(la: LifecycleActions)
    ensures |Slots(la)| == |ActionNames| == 12
    ensures Slots(la)[0] == CustomHandler(la.postProvision) && ActionNames[0] == "postProvision"
    ensures Slots(la)[1] == CustomHandler(la.preTerminate) && ActionNames[1] == "preTerminate"
    ensures Slots(la)[2] == SwitchoverAction(la.switchover) && ActionNames[2] == "switchover"
    ensures Slots(la)[3] == CustomHandler(la.memberJoin) && ActionNames[3] == "memberJoin"
    ensures Slots(la)[4] == CustomHandler(la.memberLeave) && ActionNames[4] == "memberLeave"
    ensures Slots(la)[5] == CustomHandler(la.readonly) && ActionNames[5] == "readonly"
    ensures Slots(la)[6] == CustomHandler(la.readwrite) && ActionNames[6] == "readwrite"
    ensures Slots(la)[7] == CustomHandler(la.dataDump) && ActionNames[7] == "dataDump"
    ensures Slots(la)[8] == CustomHandler(la.dataLoad) && ActionNames[8] == "dataLoad"
    ensures Slots(la)[9] == CustomHandler(la.reconfigure) && ActionNames[9] == "reconfigure"
    ensures Slots(la)[10] == CustomHandler(la.accountProvision) && ActionNames[10] == "accountProvision"
    ensures Slots(la)[11] == RoleProbeAction(la.roleProbe) && ActionNames[11] == "roleProbe"
  {
  }

  function Opt<T>(o: Option<T>): seq<T>
  {
    if o.Some? then [o.value] else []
  }

  /** The descriptors of the first `k` slots that are buildable, in slot order. */
  function Built(slots: seq<Option<Action>>, names: seq<string>, k: nat): seq<Proto.Action>
    requires |slots| == |names| && k <= |slots|
  {
    if k == 0 then []
    else Built(slots, names, k - 1) + Opt(BuildAction4KBAgentLow(slots[k - 1], names[k - 1]))
  }

  /** The indices among the first `k` slots that are buildable, in increasing order. */
  function Positions(slots: seq<Option<Action>>, k: nat): seq<nat>
    requires k <= |slots|
  {
    if k == 0 then []
    else Positions(slots, k - 1) + (if Buildable(slots[k - 1]) then [k - 1] else [])
  }

  function CatalogActions(la: LifecycleActions): seq<Proto.Action>
  {
    Built(Slots(la), ActionNames, |ActionNames|)
  }

  function CatalogProbes(la: LifecycleActions): seq<Proto.Probe>
  {
    Opt(BuildProbe4KBAgent(la.roleProbe, "roleProbe").1)
  }

  /** The buildable slots among the first `k` are listed once each, in increasing order. */
  lemma {:induction false} PositionsListBuildable(slots: seq<Option<Action>>, k: nat)
    requires k <= |slots|
    ensures var p := Positions(slots, k);
      && |p| <= k
      && (forall i :: 0 <= i < |p| ==> p[i] < k && Buildable(slots[p[i]]))
      && (forall i, j :: 0 <= i < j < |p| ==> p[i] < p[j])
      && (forall m :: 0 <= m < k && Buildable(slots[m]) ==> m in p)
  {
    if k > 0 {
      PositionsListBuildable(slots, k - 1);
    }
  }

  /** The i-th descriptor built is the one of the i-th buildable slot. */
  lemma {:induction false} BuiltAt(slots: seq<Option<Action>>, names: seq<string>, k: nat)
    requires |slots| == |names| && k <= |slots|
    ensures var p := Positions(slots, k);
      && |Built(slots, names, k)| == |p|
      && (forall i :: 0 <= i < |p| ==> p[i] < k && Buildable(slots[p[i]]))
      && (forall i :: 0 <= i < |p| ==> CopiedFrom(Built(slots, names, k)[i], slots[p[i]].value, names[p[i]]))
  {
    PositionsListBuildable(slots, k);
    if k > 0 {
      BuiltAt(slots, names, k - 1);
    }
  }

  /** The names listed in ActionNames are pairwise different. */
  lemma ActionNamesDistinct()
    ensures forall i, j :: 0 <= i < j < |ActionNames| ==> ActionNames[i] != ActionNames[j]
  {
  }

  /**
   * The catalog lists each buildable action once, under its own name, in the
   * fixed order of ActionNames, and nothing else.
   */
  lemma CatalogOrder(la: LifecycleActions)
    ensures var acts := CatalogActions(la); var p := Positions(Slots(la), |ActionNames|);
      && |acts| == |p| <= |ActionNames|
      && (forall i :: 0 <= i < |acts| ==>
            p[i] < |ActionNames| && acts[i].name == ActionNames[p[i]] && Buildable(Slots(la)[p[i]])
            && CopiedFrom(acts[i], Slots(la)[p[i]].value, ActionNames[p[i]]))
      && (forall i, j :: 0 <= i < j < |acts| ==> p[i] < p[j] && acts[i].name != acts[j].name)
      && (forall k :: 0 <= k < |ActionNames| ==>
            (Buildable(Slots(la)[k]) <==> exists i :: 0 <= i < |acts| && acts[i].name == ActionNames[k]))
  {
    var slots, acts, p := Slots(la), CatalogActions(la), Positions(Slots(la), |ActionNames|);
    BuiltAt(slots, ActionNames, |ActionNames|);
    PositionsListBuildable(slots, |ActionNames|);
    ActionNamesDistinct();
    forall k | 0 <= k < |ActionNames| && Buildable(slots[k])
      ensures exists i :: 0 <= i < |acts| && acts[i].name == ActionNames[k]
    {
      var i :| 0 <= i < |p| && p[i] == k;
      assert acts[i].name == ActionNames[k];
    }
    forall k | 0 <= k < |ActionNames| && (exists i :: 0 <= i < |acts| && acts[i].name == ActionNames[k])
      ensures Buildable(slots[k])
    {
      var i :| 0 <= i < |acts| && acts[i].name == ActionNames[k];
      assert ActionNames[p[i]] == ActionNames[k];
      assert p[i] == k;
    }
  }

  /**
   * There is at most one probe, the role probe, and there is one exactly
   * when the role probe's action is in the catalog, as its last entry.
   */
  lemma RoleProbeCatalog(la: LifecycleActions)
    ensures |CatalogProbes(la)| <= 1
    ensures |CatalogProbes(la)| == 1 <==> Buildable(RoleProbeAction(la.roleProbe))
    ensures |CatalogProbes(la)| == 1 ==>
      && CatalogProbes(la)[0].action == "roleProbe"
      && |CatalogActions(la)| > 0
      && CatalogActions(la)[|CatalogActions(la)| - 1].name == "roleProbe"
  {
  }

  /** Six consecutive slots of the catalog, written out. */
  lemma BuiltSix(slots: seq<Option<Action>>, names: seq<string>, k: nat)
    requires |slots| == |names| && k + 6 <= |slots|
    ensures Built(slots, names, k + 6)
      == Built(slots, names, k)
       + Opt(BuildAction4KBAgentLow(slots[k + 0], names[k + 0]))
       + Opt(BuildAction4KBAgentLow(slots[k + 1], names[k + 1]))
       + Opt(BuildAction4KBAgentLow(slots[k + 2], names[k + 2]))
       + Opt(BuildAction4KBAgentLow(slots[k + 3], names[k + 3]))
       + Opt(BuildAction4KBAgentLow(slots[k + 4], names[k + 4]))
       + Opt(BuildAction4KBAgentLow(slots[k + 5], names[k + 5]))
  {
    assert Built(slots, names, k + 1) == Built(slots, names, k + 0) + Opt(BuildAction4KBAgentLow(slots[k + 0], names[k + 0]));
    assert Built(slots, names, k + 2) == Built(slots, names, k + 1) + Opt(BuildAction4KBAgentLow(slots[k + 1], names[k + 1]));
    assert Built(slots, names, k + 3) == Built(slots, names, k + 2) + Opt(BuildAction4KBAgentLow(slots[k + 2], names[k + 2]));
    assert Built(slots, names, k + 4) == Built(slots, names, k + 3) + Opt(BuildAction4KBAgentLow(slots[k + 3], names[k + 3]));
    assert Built(slots, names, k + 5) == Built(slots, names, k + 4) + Opt(BuildAction4KBAgentLow(slots[k + 4], names[k + 4]));
    assert Built(slots, names, k + 6) == Built(slots, names, k + 5) + Opt(BuildAction4KBAgentLow(slots[k + 5], names[k + 5]));
  }

  /** The first six slots of the catalog, in the terms the builder computes them. */
  lemma CatalogFirstSix(la: LifecycleActions)
    ensures Built(Slots(la), ActionNames, 6)
      == []
       + Opt(BuildAction4KBAgent(la.postProvision, "postProvision"))
       + Opt(BuildAction4KBAgent(la.preTerminate, "preTerminate"))
       + Opt(BuildAction4KBAgentLow(SwitchoverAction(la.switchover), "switchover"))
       + Opt(BuildAction4KBAgent(la.memberJoin, "memberJoin"))
       + Opt(BuildAction4KBAgent(la.memberLeave, "memberLeave"))
       + Opt(BuildAction4KBAgent(la.readonly, "readonly"))
  {
    SlotsAt(la);
    BuiltSix(Slots(la), ActionNames, 0);
    BuildAction4KBAgentViaLow(la.postProvision, "postProvision");
    BuildAction4KBAgentViaLow(la.preTerminate, "preTerminate");
    BuildAction4KBAgentViaLow(la.memberJoin, "memberJoin");
    BuildAction4KBAgentViaLow(la.memberLeave, "memberLeave");
    BuildAction4KBAgentViaLow(la.readonly, "readonly");
  }

  /** The catalog, one slot after the other, in the terms the builder computes them. */
  lemma CatalogUnrolled(la: LifecycleActions)
    ensures CatalogActions(la)
      == []
       + Opt(BuildAction4KBAgent(la.postProvision, "postProvision"))
       + Opt(BuildAction4KBAgent(la.preTerminate, "preTerminate"))
       + Opt(BuildAction4KBAgentLow(SwitchoverAction(la.switchover), "switchover"))
       + Opt(BuildAction4KBAgent(la.memberJoin, "memberJoin"))
       + Opt(BuildAction4KBAgent(la.memberLeave, "memberLeave"))
       + Opt(BuildAction4KBAgent(la.readonly, "readonly"))
       + Opt(BuildAction4KBAgent(la.readwrite, "readwrite"))
       + Opt(BuildAction4KBAgent(la.dataDump, "dataDump"))
       + Opt(BuildAction4KBAgent(la.dataLoad, "dataLoad"))
       + Opt(BuildAction4KBAgent(la.reconfigure, "reconfigure"))
       + Opt(BuildAction4KBAgent(la.accountProvision, "accountProvision"))
       + Opt(BuildProbe4KBAgent(la.roleProbe, "roleProbe").0)
  {
    SlotsAt(la);
    CatalogFirstSix(la);
    BuiltSix(Slots(la), ActionNames, 6);
    BuildAction4KBAgentViaLow(la.readwrite, "readwrite");
    BuildAction4KBAgentViaLow(la.dataDump, "dataDump");
    BuildAction4KBAgentViaLow(la.dataLoad, "dataLoad");
    BuildAction4KBAgentViaLow(la.reconfigure, "reconfigure");
    BuildAction4KBAgentViaLow(la.accountProvision, "accountProvision");
  }

  /** Append the descriptor when it was built. */
  method AppendIfBuilt(actions: seq<Proto.Action>, a: Option<Proto.Action>) returns (r: seq<Proto.Action>)
    ensures r == actions + Opt(a)
  {
    r := actions;
    if a.Some? {
      r := r + [a.value];
    }
  }

  /** One step `if a := buildAction4KBAgent(handler, name); a != nil { append }` of the builder. */
  method AppendAction(actions: seq<Proto.Action>, handler: Option<LifecycleActionHandler>, name: string)
    returns (r: seq<Proto.Action>)
    ensures r == actions + Opt(BuildAction4KBAgent(handler, name))
  {
    var a := BuildAction4KBAgent(handler, name);
    r := AppendIfBuilt(actions, a);
  }

  /** The last step: the role probe's action and its schedule, both or neither. */
  method AppendRoleProbe(actions: seq<Proto.Action>, probes: seq<Proto.Probe>, roleProbe: Option<Probe>)
    returns (actions': seq<Proto.Action>, probes': seq<Proto.Probe>)
    ensures actions' == actions + Opt(BuildProbe4KBAgent(roleProbe, "roleProbe").0)
    ensures probes' == probes + Opt(BuildProbe4KBAgent(roleProbe, "roleProbe").1)
  {
    actions', probes' := actions, probes;
    var ap := BuildProbe4KBAgent(roleProbe, "roleProbe");
    if ap.0.Some? && ap.1.Some? {
      actions' := actions' + [ap.0.value];
      probes' := probes' + [ap.1.value];
    }
  }

  /**
   * buildKBAgentStartupEnv: collect the descriptors of the catalog, in its
   * order, and hand them to the environment encoder `buildEnvVars`.
   */
  method BuildKBAgentStartupEnv(
    la: LifecycleActions, buildEnvVars: (seq<Proto.Action>, seq<Proto.Probe>) -> Result<seq<EnvVar>, string>)
    returns (r: Result<seq<EnvVar>, string>)
    ensures r == buildEnvVars(CatalogActions(la), CatalogProbes(la))
  {
    var actions: seq<Proto.Action> := [];
    var probes: seq<Proto.Probe> := [];
    actions := AppendAction(actions, la.postProvision, "postProvision");
    actions := AppendAction(actions, la.preTerminate, "preTerminate");
    ghost var beforeSwitchover := actions;
    if la.switchover.Some? {
      var a := BuildAction4KBAgentLow(la.switchover.value.withoutCandidate, "switchover");
      actions := AppendIfBuilt(actions, a);
    }
    assert actions == beforeSwitchover + Opt(BuildAction4KBAgentLow(SwitchoverAction(la.switchover), "switchover"));
    actions := AppendAction(actions, la.memberJoin, "memberJoin");
    actions := AppendAction(actions, la.memberLeave, "memberLeave");
    actions := AppendAction(actions, la.readonly, "readonly");
    actions := AppendAction(actions, la.readwrite, "readwrite");
    actions := AppendAction(actions, la.dataDump, "dataDump");
    actions := AppendAction(actions, la.dataLoad, "dataLoad");
    actions := AppendAction(actions, la.reconfigure, "reconfigure");
    actions := AppendAction(actions, la.accountProvision, "accountProvision");
    actions, probes := AppendRoleProbe(actions, probes, la.roleProbe);
    CatalogUnrolled(la);
    assert [] + CatalogProbes(la) == CatalogProbes(la);
    r := buildEnvVars(actions, probes);
  }

  // ---------------------------------------------------------------------------
  // One exec image, one exec container

  datatype ValidationError =
    | MultipleImages            // "only one exec image is allowed in lifecycle actions"
    | MultipleContainers        // "only one exec container is allowed in lifecycle actions"
    | ContainerNotFound(name: string)  // "exec container <name> not found"
    | ImageMismatch             // "exec image and container must be the same"

  /** The handlers whose exec image and container are checked; the switchover is not among them. */
  function CheckedHandlers(la: LifecycleActions): (hs: seq<Option<LifecycleActionHandler>>)
    ensures |hs| == 10 || |hs| == 11
    ensures hs[..10] == [la.postProvision, la.preTerminate, la.memberJoin, la.memberLeave, la.readonly,
                         la.readwrite, la.dataDump, la.dataLoad, la.reconfigure, la.accountProvision]
    ensures |hs| == 11 <==> la.roleProbe.Some? && la.roleProbe.value.action.exec.Some?
    ensures |hs| == 11 ==> HandlerExec(hs[10]) == la.roleProbe.value.action.exec
  {
    [la.postProvision, la.preTerminate, la.memberJoin, la.memberLeave, la.readonly, la.readwrite,
     la.dataDump, la.dataLoad, la.reconfigure, la.accountProvision]
    + (if la.roleProbe.Some? && la.roleProbe.value.action.exec.Some?
       then [Some(LifecycleActionHandler(None, Some(la.roleProbe.value.action)))]
       else [])
  }

  function HandlerExec(h: Option<LifecycleActionHandler>): Option<ExecAction>
  {
    if h.Some? && h.value.customHandler.Some? then h.value.customHandler.value.exec else None
  }

  /** The scan over the handlers, from the image and container chosen so far. */
  function ScanExec(hs: seq<Option<LifecycleActionHandler>>, image: string, container: string)
    : (r: Result<(string, string), ValidationError>)
    ensures r.Failure? ==> r.error == MultipleImages || r.error == MultipleContainers
    decreases |hs|
  {
    if hs == [] then Success((image, container))
    else match HandlerExec(hs[0])
      case None => ScanExec(hs[1..], image, container)
      case Some(e) =>
        if e.image != "" && image != "" && image != e.image then Failure(MultipleImages)
        else
          var image' := if e.image != "" then e.image else image;
          if e.container != "" && container != "" && container != e.container then Failure(MultipleContainers)
          else ScanExec(hs[1..], image', if e.container != "" then e.container else container)
  }

  /** The first container with the given name. */
  function FindContainer(cs: seq<Container>, name: string): (r: Option<Container>)
    ensures r.None? <==> forall i :: 0 <= i < |cs| ==> cs[i].name != name
    ensures r.Some? ==> exists i :: 0 <= i < |cs| && cs[i] == r.value && r.value.name == name
                                 && forall j :: 0 <= j < i ==> cs[j].name != name
    decreases |cs|
  {
    if cs == [] then None
    else if cs[0].name == name then Some(cs[0])
    else
      var r := FindContainer(cs[1..], name);
      assert forall i :: 1 <= i < |cs| ==> cs[1..][i - 1] == cs[i];
      r
  }

  /** The image and container all exec actions agree on, checked against the pod's containers. */
  function ExecImageNContainer(la: Option<LifecycleActions>, pod: seq<Container>): (r: Result<(string, string), ValidationError>)
    ensures la.None? ==> r == Success(("", ""))
    ensures r.Success? && r.value.1 != "" ==>
      FindContainer(pod, r.value.1).Some? && FindContainer(pod, r.value.1).value.image == r.value.0
    ensures r.Failure? && r.error.ContainerNotFound? ==> forall i :: 0 <= i < |pod| ==> pod[i].name != r.error.name
  {
    if la.None? then Success(("", ""))
    else match ScanExec(CheckedHandlers(la.value), "", "")
      case Failure(e) => Failure(e)
      case Success((image, container)) =>
        var c := FindContainer(pod, container);
        if container != "" && c.None? then Failure(ContainerNotFound(container))
        else if image != "" && container != "" then
          if c.value.image == image then Success((image, container)) else Failure(ImageMismatch)
        else if image == "" && container != "" then Success((c.value.image, container))
        else Success((image, container))
  }

  /** The non-empty values of `vs` are all the same. */
  predicate AtMostOne(vs: seq<string>)
  {
    forall x, y :: x in vs && y in vs && x != "" && y != "" ==> x == y
  }

  function FirstNonEmpty(vs: seq<string>): string
  {
    if vs == [] then "" else if vs[0] != "" then vs[0] else FirstNonEmpty(vs[1..])
  }

  function Images(hs: seq<Option<LifecycleActionHandler>>): seq<string>
    decreases |hs|
  {
    if hs == [] then []
    else (if HandlerExec(hs[0]).Some? then [HandlerExec(hs[0]).value.image] else []) + Images(hs[1..])
  }

  function Containers(hs: seq<Option<LifecycleActionHandler>>): seq<string>
    decreases |hs|
  {
    if hs == [] then []
    else (if HandlerExec(hs[0]).Some? then [HandlerExec(hs[0]).value.container] else []) + Containers(hs[1..])
  }

  /** Folding a value into the head of an agreeing list. */
  lemma AtMostOneStep(a: string, b: string, rest: seq<string>)
    ensures AtMostOne([a, b] + rest) <==>
      (a == "" || b == "" || a == b) && AtMostOne([if b != "" then b else a] + rest)
    ensures (a == "" || b == "" || a == b) ==>
      FirstNonEmpty([a, b] + rest) == FirstNonEmpty([if b != "" then b else a] + rest)
  {
    assert ([a, b] + rest)[1..] == [b] + rest;
    assert ([b] + rest)[1..] == rest;
    assert ([a] + rest)[1..] == rest;
    var c := if b != "" then b else a;
    if AtMostOne([a, b] + rest) {
      assert a in [a, b] + rest && b in [a, b] + rest;
      forall x, y | x in [c] + rest && y in [c] + rest && x != "" && y != "" ensures x == y {
        assert x in [a, b] + rest && y in [a, b] + rest;
      }
    }
    if (a == "" || b == "" || a == b) && AtMostOne([c] + rest) {
      forall x, y | x in [a, b] + rest && y in [a, b] + rest && x != "" && y != "" ensures x == y {
        assert x == a || x == b || x in rest;
        assert x in [c] + rest && y in [c] + rest;
      }
    }
  }

  /**
   * The scan fails iff the images or the containers do not all agree, and
   * otherwise yields the agreed image and container.
   */
  predicate ScanAgrees(hs: seq<Option<LifecycleActionHandler>>, image: string, container: string)
  {
    var r := ScanExec(hs, image, container);
    && (r.Success? <==> AtMostOne([image] + Images(hs)) && AtMostOne([container] + Containers(hs)))
    && (r.Success? ==> r.value == (FirstNonEmpty([image] + Images(hs)), FirstNonEmpty([container] + Containers(hs))))
    && (r.Failure? ==> r.error == MultipleImages || r.error == MultipleContainers)
    && (r.Failure? && AtMostOne([image] + Images(hs)) ==> r.error == MultipleContainers)
    && (r.Failure? && AtMostOne([container] + Containers(hs)) ==> r.error == MultipleImages)
  }

  /** The lists the scan folds over, with the handler's exec action in front. */
  lemma ScanLists(hs: seq<Option<LifecycleActionHandler>>, image: string, container: string, e: ExecAction)
    requires hs != [] && HandlerExec(hs[0]) == Some(e)
    ensures [image] + Images(hs) == [image, e.image] + Images(hs[1..])
    ensures [container] + Containers(hs) == [container, e.container] + Containers(hs[1..])
  {
    assert Images(hs) == [e.image] + Images(hs[1..]);
    assert Containers(hs) == [e.container] + Containers(hs[1..]);
  }

  /** A handler naming a second image stops the scan. */
  lemma ScanStepImageClash(hs: seq<Option<LifecycleActionHandler>>, image: string, container: string, e: ExecAction)
    requires hs != [] && HandlerExec(hs[0]) == Some(e)
    requires e.image != "" && image != "" && image != e.image
    ensures ScanAgrees(hs, image, container)
  {
    ScanLists(hs, image, container, e);
    AtMostOneStep(image, e.image, Images(hs[1..]));
    assert ScanExec(hs, image, container) == Failure(MultipleImages);
  }

  /** A handler naming a second container stops the scan. */
  lemma ScanStepContainerClash(hs: seq<Option<LifecycleActionHandler>>, image: string, container: string, e: ExecAction)
    requires hs != [] && HandlerExec(hs[0]) == Some(e)
    requires !(e.image != "" && image != "" && image != e.image)
    requires e.container != "" && container != "" && container != e.container
    ensures ScanAgrees(hs, image, container)
  {
    ScanLists(hs, image, container, e);
    AtMostOneStep(container, e.container, Containers(hs[1..]));
    assert ScanExec(hs, image, container) == Failure(MultipleContainers);
  }

  /** A handler that agrees with the values so far passes them on, updated. */
  lemma ScanStepContinue(hs: seq<Option<LifecycleActionHandler>>, image: string, container: string, e: ExecAction)
    requires hs != [] && HandlerExec(hs[0]) == Some(e)
    requires !(e.image != "" && image != "" && image != e.image)
    requires !(e.container != "" && container != "" && container != e.container)
    requires ScanAgrees(hs[1..], if e.image != "" then e.image else image,
                        if e.container != "" then e.container else container)
    ensures ScanAgrees(hs, image, container)
  {
    ScanLists(hs, image, container, e);
    AtMostOneStep(image, e.image, Images(hs[1..]));
    AtMostOneStep(container, e.container, Containers(hs[1..]));
    assert ScanExec(hs, image, container)
        == ScanExec(hs[1..], if e.image != "" then e.image else image,
                    if e.container != "" then e.container else container);
  }

  lemma {:induction false} ScanExecCharacterised(hs: seq<Option<LifecycleActionHandler>>, image: string, container: string)
    ensures ScanAgrees(hs, image, container)
    decreases |hs|
  {
    if hs == [] {
      assert ([image] + [])[1..] == [];
      assert ([container] + [])[1..] == [];
    } else {
      var rest := hs[1..];
      match HandlerExec(hs[0])
      case None =>
        ScanExecCharacterised(rest, image, container);
        assert Images(hs) == Images(rest);
        assert Containers(hs) == Containers(rest);
      case Some(e) =>
        if e.image != "" && image != "" && image != e.image {
          ScanStepImageClash(hs, image, container, e);
        } else if e.container != "" && container != "" && container != e.container {
          ScanStepContainerClash(hs, image, container, e);
        } else {
          ScanExecCharacterised(rest, if e.image != "" then e.image else image,
                                if e.container != "" then e.container else container);
          ScanStepContinue(hs, image, container, e);
        }
    }
  }

  lemma AtMostOneEmptyHead(vs: seq<string>)
    ensures AtMostOne([""] + vs) <==> AtMostOne(vs)
    ensures FirstNonEmpty([""] + vs) == FirstNonEmpty(vs)
  {
    assert ([""] + vs)[1..] == vs;
    if AtMostOne([""] + vs) {
      forall x, y | x in vs && y in vs && x != "" && y != "" ensures x == y {
        assert x in [""] + vs && y in [""] + vs;
      }
    }
    if AtMostOne(vs) {
      forall x, y | x in [""] + vs && y in [""] + vs && x != "" && y != "" ensures x == y {
        assert x in vs && y in vs;
      }
    }
  }

  /**
   * customExecActionImageNContainer, stated on the lists of images and
   * containers the checked handlers name: conflicting images or containers
   * are an error; a named container must exist and, when an image is named
   * too, run that image; a container alone lends its image.
   */
  lemma ExecImageNContainerCases(la: LifecycleActions, pod: seq<Container>)
    ensures var hs := CheckedHandlers(la); var r := ExecImageNContainer(Some(la), pod);
      && (!AtMostOne(Images(hs)) || !AtMostOne(Containers(hs)) ==>
            r.Failure? && (r.error == MultipleImages || r.error == MultipleContainers))
      && (!AtMostOne(Images(hs)) && AtMostOne(Containers(hs)) ==> r == Failure(MultipleImages))
      && (AtMostOne(Images(hs)) && !AtMostOne(Containers(hs)) ==> r == Failure(MultipleContainers))
      && (AtMostOne(Images(hs)) && AtMostOne(Containers(hs)) ==>
            var image := FirstNonEmpty(Images(hs));
            var container := FirstNonEmpty(Containers(hs));
            var c := FindContainer(pod, container);
            && (container == "" ==> r == Success((image, "")))
            && (container != "" && c.None? ==> r == Failure(ContainerNotFound(container)))
            && (container != "" && c.Some? && image == "" ==> r == Success((c.value.image, container)))
            && (container != "" && c.Some? && image != "" ==>
                  r == if c.value.image == image then Success((image, container)) else Failure(ImageMismatch)))
  {
    var hs := CheckedHandlers(la);
    ScanExecCharacterised(hs, "", "");
    AtMostOneEmptyHead(Images(hs));
    AtMostOneEmptyHead(Containers(hs));
  }

  /** Without lifecycle actions there is nothing to check. */
  lemma NoLifecycleActions(pod: seq<Container>)
    ensures ExecImageNContainer(None, pod) == Success(("", ""))
  {
  }

  /** The switchover action plays no part in the check. */
  lemma SwitchoverNotChecked(la: LifecycleActions, s: Option<ComponentSwitchover>, pod: seq<Container>)
    ensures ExecImageNContainer(Some(la.(switchover := s)), pod) == ExecImageNContainer(Some(la), pod)
  {
  }

  method CustomExecActionImageNContainer(la: Option<LifecycleActions>, pod: seq<Container>)
    returns (r: Result<(string, string), ValidationError>)
    ensures r == ExecImageNContainer(la, pod)
  {
    if la.None? {
      return Success(("", ""));
    }
    var handlers := CheckedHandlers(la.value);
    var image, container := "", "";
    var i := 0;
    while i < |handlers|
      invariant 0 <= i <= |handlers|
      invariant ScanExec(handlers, "", "") == ScanExec(handlers[i..], image, container)
    {
      var h := handlers[i];
      assert handlers[i..][0] == h && handlers[i..][1..] == handlers[i + 1..];
      if h.None? || h.value.customHandler.None? || h.value.customHandler.value.exec.None? {
        i := i + 1;
        continue;
      }
      var exec := h.value.customHandler.value.exec.value;
      if exec.image != "" {
        if |image| > 0 && image != exec.image {
          return Failure(MultipleImages);
        }
        image := exec.image;
      }
      if exec.container != "" {
        if |container| > 0 && container != exec.container {
          return Failure(MultipleContainers);
        }
        container := exec.container;
      }
      i := i + 1;
    }
    var c: Option<Container> := None;
    if |container| > 0 {
      var j := 0;
      while j < |pod|
        invariant 0 <= j <= |pod|
        invariant FindContainer(pod, container) == FindContainer(pod[j..], container)
      {
        assert pod[j..][0] == pod[j] && pod[j..][1..] == pod[j + 1..];
        if pod[j].name == container {
          c := Some(pod[j]);
          break;
        }
        j := j + 1;
      }
      if c.None? {
        return Failure(ContainerNotFound(container));
      }
    }
    if |image| > 0 && |container| > 0 {
      if c.value.image == image {
        return Success((image, container));
      }
      return Failure(ImageMismatch);
    }
    if |image| == 0 && |container| > 0 {
      image := c.value.image;
    }
    return Success((image, container));
  }

  // ---------------------------------------------------------------------------
  // The sidecar container

  /** The kb-agent container as the builder creates it. */
  function KBAgentContainer(toolsImage: string, env: seq<EnvVar>): (r: Container)
    ensures r.name == KBAgentContainerName && r.image == toolsImage && r.env == env
    ensures r.command == [KBAgentCommand] && r.args == ["--port", "3501"] && r.volumeMounts == []
    ensures r.ports == [ContainerPort(KBAgentPort, KBAgentPortName, "TCP")]
    ensures r.startupProbeTCPPort == Some(r.ports[0].containerPort)
  {
    Container(KBAgentContainerName, toolsImage, [KBAgentCommand], ["--port", "3501"], env,
              [ContainerPort(KBAgentPort, KBAgentPortName, "TCP")], [], Some(KBAgentPort))
  }

  /** The init container that copies the agent's binaries onto the shared mount. */
  function KBAgentInitContainer(toolsImage: string): (r: Container)
    ensures r.name == KBAgentInitContainerName && r.image == toolsImage
    ensures r.args == [] && r.env == [] && r.ports == [] && r.startupProbeTCPPort.None?
    ensures r.volumeMounts == [SharedVolumeMount]
    ensures r.command == ["cp", "-r", KBAgentCommand, "/bin/curl", SharedVolumeMount.mountPath + "/"]
    ensures KBAgentCommandOnSharedMount == r.command[4] + KBAgentCommand[|"/bin/"|..]
  {
    Container(KBAgentInitContainerName, toolsImage,
              ["cp", "-r", KBAgentCommand, "/bin/curl", KBAgentSharedMountPath + "/"], [], [], [],
              [SharedVolumeMount], None)
  }

  /** The agent container moved onto a custom exec image: run from the shared mount. */
  function WithCustomImage(c: Container, image: string): (r: Container)
    requires |c.command| > 0
    ensures r == c.(image := image, command := [KBAgentCommandOnSharedMount] + c.command[1..],
                    volumeMounts := c.volumeMounts + [SharedVolumeMount])
  {
    c.(image := image, command := c.command[0 := KBAgentCommandOnSharedMount],
       volumeMounts := c.volumeMounts + [SharedVolumeMount])
  }

  datatype BuildError = EnvVarsError(text: string) | Invalid(error: ValidationError)

  class SynthesizedComponent {
    var lifecycleActions: Option<LifecycleActions>
    var containers: seq<Container>
    var initContainers: seq<Container>
    var hostNetwork: Option<HostNetwork>

    constructor (lifecycleActions: Option<LifecycleActions>, containers: seq<Container>,
                 initContainers: seq<Container>, hostNetwork: Option<HostNetwork>)
      ensures this.lifecycleActions == lifecycleActions && this.containers == containers
      ensures this.initContainers == initContainers && this.hostNetwork == hostNetwork
    {
      this.lifecycleActions := lifecycleActions;
      this.containers := containers;
      this.initContainers := initContainers;
      this.hostNetwork := hostNetwork;
    }

    /**
     * adaptKBAgentIfCustomImageNContainerDefined: when the exec actions name
     * an image, add the init container and move the agent onto that image.
     */
    method AdaptKBAgentIfCustomImageNContainerDefined(toolsImage: string, container: Container)
      returns (adapted: Container, err: Option<ValidationError>)
      requires |container.command| > 0
      modifies this`initContainers
      ensures var v := ExecImageNContainer(lifecycleActions, containers);
        && (v.Failure? ==> err == Some(v.error) && adapted == container && initContainers == old(initContainers))
        && (v.Success? && v.value.0 == "" ==> err.None? && adapted == container && initContainers == old(initContainers))
        && (v.Success? && v.value.0 != "" ==>
              && err.None?
              && adapted == WithCustomImage(container, v.value.0)
              && initContainers == old(initContainers) + [KBAgentInitContainer(toolsImage)])
    {
      var v := CustomExecActionImageNContainer(lifecycleActions, containers);
      if v.Failure? {
        return container, Some(v.error);
      }
      var image := v.value.0;
      if |image| == 0 {
        return container, None;
      }
      initContainers := initContainers + [KBAgentInitContainer(toolsImage)];
      adapted := container.(image := image);
      adapted := adapted.(command := adapted.command[0 := KBAgentCommandOnSharedMount]);
      adapted := adapted.(volumeMounts := adapted.volumeMounts + [SharedVolumeMount]);
      err := None;
    }

    /**
     * buildKBAgentContainer: with lifecycle actions present, build the agent
     * container from the encoded catalog, adapt it to a custom exec image,
     * publish its port on the host network when there is one, and append it
     * to the pod. Nothing changes on an error.
     */
    method BuildKBAgentContainer(
      toolsImage: string, buildEnvVars: (seq<Proto.Action>, seq<Proto.Probe>) -> Result<seq<EnvVar>, string>)
      returns (err: Option<BuildError>)
      modifies this
      ensures lifecycleActions == old(lifecycleActions)
      ensures old(lifecycleActions).None? ==> err.None? && unchanged(this)
      ensures old(lifecycleActions).Some? ==>
        var env := buildEnvVars(CatalogActions(old(lifecycleActions).value), CatalogProbes(old(lifecycleActions).value));
        var v := ExecImageNContainer(old(lifecycleActions), old(containers));
        && (env.Failure? ==> err == Some(EnvVarsError(env.error)) && unchanged(this))
        && (env.Success? && v.Failure? ==> err == Some(Invalid(v.error)) && unchanged(this))
        && (env.Success? && v.Success? ==>
              var c := KBAgentContainer(toolsImage, env.value);
              var image := v.value.0;
              && err.None?
              && containers == old(containers) + [if image == "" then c else WithCustomImage(c, image)]
              && initContainers == old(initContainers) + (if image == "" then [] else [KBAgentInitContainer(toolsImage)])
              && hostNetwork == (if old(hostNetwork).None? then None else
                   Some(HostNetwork(old(hostNetwork).value.containerPorts
                                    + [HostNetworkContainerPort(KBAgentContainerName, [KBAgentPortName])]))))
    {
      if lifecycleActions.None? {
        return None;
      }
      var env := BuildKBAgentStartupEnv(lifecycleActions.value, buildEnvVars);
      if env.Failure? {
        return Some(EnvVarsError(env.error));
      }
      var container := KBAgentContainer(toolsImage, env.value);
      var adaptErr;
      container, adaptErr := AdaptKBAgentIfCustomImageNContainerDefined(toolsImage, container);
      if adaptErr.Some? {
        return Some(Invalid(adaptErr.value));
      }
      if hostNetwork.Some? {
        var ports := hostNetwork.value.containerPorts;
        hostNetwork := Some(HostNetwork(ports + [HostNetworkContainerPort(container.name, [KBAgentPortName])]));
      }
      containers := containers + [container];
      err := None;
    }
  }
}
