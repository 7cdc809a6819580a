/** The tools a run exposes: what the driver allows and a pack of the run requests within its role's
    ceiling, and what the driver grants for this run. */
module Toolset {
  import opened Wrappers
  import opened Packs

  /** One agent run: the snapshots it was started with, and whether document text may leave. */
  datatype AgentRun = AgentRun(packs: map<string, Snapshot>, policy: Policy, documentsAllowed: bool)

  /** What the driver asks for. */
  datatype Driver = Driver(allowedTools: seq<Tool>, subagents: seq<string>, topLevel: Option<string>, granted: seq<Tool>)

  datatype AgentSpec = AgentSpec(role: string, tools: set<Tool>)

  const KNOWLEDGE := [ListDocuments, ReadDocument]

  /** What a pack requests, as far as its role's ceiling of today and the document policy go. */
  function EffectiveTools(run: AgentRun, role: string): set<Tool>
    requires role in run.packs
  {
    var pack := run.packs[role];
    var caps := pack.content.capabilities * Ceiling(run.policy, pack.role);
    if pack.content.knowledge == {} then caps - KNOWLEDGE_TOOLS
    else if !run.documentsAllowed then caps - {ReadDocument}
    else caps
  }

  function Roles(d: Driver): seq<string> {
    d.subagents + (if d.topLevel.Some? then [d.topLevel.value] else [])
  }

  /** Every role of the run was started with a pack. */
  predicate Started(run: AgentRun, d: Driver) {
    forall r :: r in Roles(d) ==> r in run.packs
  }

  predicate Requested(run: AgentRun, d: Driver, t: Tool)
    requires Started(run, d)
  {
    exists r :: r in Roles(d) && t in EffectiveTools(run, r)
  }

  predicate DriverAllows(d: Driver, t: Tool) {
    t in d.allowedTools || t in KNOWLEDGE_TOOLS
  }

  /** The one rule for every tool of the run. */
  predicate Exposed(run: AgentRun, d: Driver, t: Tool)
    requires Started(run, d)
  {
    t in d.granted || (DriverAllows(d, t) && ((t == TaskTool && d.subagents != []) || Requested(run, d, t)))
  }

  predicate Distinct(tools: seq<Tool>) {
    forall i, j :: 0 <= i < j < |tools| ==> tools[i] != tools[j]
  }

  method RequestedTools(run: AgentRun, d: Driver) returns (requested: set<Tool>)
    requires Started(run, d)
    ensures forall t :: t in requested <==> Requested(run, d, t)
  {
    var roles := Roles(d);
    requested := {};
    for i := 0 to |roles|
      invariant forall t :: t in requested <==> exists r :: r in roles[..i] && t in EffectiveTools(run, r)
    {
      assert roles[i] in roles && roles[..i + 1] == roles[..i] + [roles[i]];
      requested := requested + EffectiveTools(run, roles[i]);
    }
    assert roles[..|roles|] == roles;
  }

  /** The given tools, each once, that are `Task` with subagents or requested. */
  method Allowed(tools: seq<Tool>, requested: set<Tool>, subagents: bool) returns (allowed: seq<Tool>)
    ensures Distinct(allowed)
    ensures forall t :: t in allowed <==> t in tools && ((t == TaskTool && subagents) || t in requested)
  {
    allowed := [];
    for i := 0 to |tools|
      invariant Distinct(allowed)
      invariant forall t :: t in allowed <==> t in tools[..i] && ((t == TaskTool && subagents) || t in requested)
    {
      assert tools[..i + 1] == tools[..i] + [tools[i]];
      if tools[i] !in allowed && ((tools[i] == TaskTool && subagents) || tools[i] in requested) {
        allowed := allowed + [tools[i]];
      }
    }
    assert tools[..|tools|] == tools;
  }

  /** The tools that are not among the others. */
  method Others(tools: seq<Tool>, known: seq<Tool>) returns (others: seq<Tool>)
    ensures forall t :: t in others <==> t in tools && t !in known
    ensures Distinct(tools) ==> Distinct(others)
  {
    others := [];
    for i := 0 to |tools|
      invariant forall t :: t in others <==> t in tools[..i] && t !in known
      invariant Distinct(tools) ==> Distinct(others)
    {
      assert tools[..i + 1] == tools[..i] + [tools[i]];
      if tools[i] !in known {
        assert Distinct(tools) ==> tools[i] !in tools[..i];
        others := others + [tools[i]];
      }
    }
    assert tools[..|tools|] == tools;
  }

  lemma DistinctTogether(xs: seq<Tool>, ys: seq<Tool>)
    requires Distinct(xs) && Distinct(ys) && forall y :: y in ys ==> y !in xs
    ensures Distinct(xs + ys)
  {
    forall i, j | 0 <= i < j < |xs + ys| ensures (xs + ys)[i] != (xs + ys)[j] {
      if i < |xs| <= j {
        assert (xs + ys)[i] in xs && (xs + ys)[j] in ys;
      }
    }
  }

  /** The options of a run: exactly the exposed tools, each once; every project and knowledge tool
      that is not exposed is hidden; and each subagent's own tools, which are exposed ones. */
  method Options(run: AgentRun, d: Driver, projectTools: seq<Tool>)
    returns (allowed: seq<Tool>, hidden: seq<Tool>, agents: seq<AgentSpec>)
    requires Started(run, d)
    ensures forall t :: t in allowed <==> Exposed(run, d, t)
    ensures Distinct(d.granted) ==> Distinct(allowed)
    ensures forall t :: t in hidden <==> (t in projectTools || t in KNOWLEDGE_TOOLS) && !Exposed(run, d, t)
    ensures |agents| == |d.subagents|
    ensures forall i :: 0 <= i < |agents| ==>
              agents[i].role == d.subagents[i] && forall t :: t in agents[i].tools ==> Exposed(run, d, t)
  {
    var requested := RequestedTools(run, d);
    allowed := Allowed(d.allowedTools + KNOWLEDGE, requested, d.subagents != []);
    var extra := Others(d.granted, allowed);
    ghost var driven := allowed;
    assert forall t :: t in driven + extra <==> t in driven || t in extra;
    if Distinct(d.granted) {
      DistinctTogether(driven, extra);
    }
    allowed := allowed + extra;
    hidden := Others(projectTools + KNOWLEDGE, allowed);
    agents := [];
    for i := 0 to |d.subagents|
      invariant |agents| == i
      invariant forall j :: 0 <= j < i ==>
                  agents[j].role == d.subagents[j] && forall t :: t in agents[j].tools ==> Exposed(run, d, t)
    {
      var role := d.subagents[i];
      assert Roles(d)[i] == role && role in Roles(d);
      var tools := set t | t in EffectiveTools(run, role) && (t in d.allowedTools || t in KNOWLEDGE_TOOLS);
      assert forall t :: t in tools ==> Requested(run, d, t);
      agents := agents + [AgentSpec(role, tools)];
    }
  }

  // ---------------------------------------------------------------------------------------------
  // What the rule promises
  // ---------------------------------------------------------------------------------------------

  /** Without permission to send document text, the run exposes what it would with it, except the tool
      that reads documents, unless the driver grants that tool itself. */
  lemma MetadataOnlyExactly(run: AgentRun, d: Driver, t: Tool)
    requires Started(run, d) && run.documentsAllowed
    ensures Exposed(run.(documentsAllowed := false), d, t) <==>
              Exposed(run, d, t) && (t == ReadDocument ==> t in d.granted)
  {
  }

  /** A run whose packs are those assigned to its roles. */
  ghost predicate RunsAssigned(run: AgentRun, l: Library, sha: Sha, company: string) {
    forall r :: r in run.packs ==> SnapshotOf(l, sha, company, r) == Some(run.packs[r])
  }

  /** Whatever a run exposes without being granted, and is not Task, is in the published content of the
      pack assigned to one of its roles, within that role's ceiling of today; a knowledge tool only
      where that content refers to documents. */
  lemma ExposedIsPublished(sha: Sha, steps: seq<Step>, company: string, run: AgentRun, d: Driver, t: Tool)
    requires Started(run, d) && RunsAssigned(run, Run(EMPTY, sha, steps), sha, company)
    requires Exposed(run, d, t) && t !in d.granted && t != TaskTool
    ensures DriverAllows(d, t)
    ensures var l := Run(EMPTY, sha, steps);
            exists r :: r in Roles(d) && (company, r) in l.assignments
                        && var a := l.assignments[(company, r)];
                           && PublishedAt(l, a.pack, a.revision).Some?
                           && t in PublishedAt(l, a.pack, a.revision).value.content.capabilities
                           && t in Ceiling(run.policy, r)
                           && (t in KNOWLEDGE_TOOLS ==> PublishedAt(l, a.pack, a.revision).value.content.knowledge != {})
  {
  }
}
