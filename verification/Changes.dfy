/** The change record people approve, the configuration items it holds, and the gate every
    delivery step passes. Data and checks only: the steps are in Protocol. */
module Changes {
  import opened Wrappers
  import opened Blocks
  import Texts

  // ---------------------------------------------------------------------------------------------
  // Configuration items and observed states
  // ---------------------------------------------------------------------------------------------

  datatype RowAction = Add | Update

  type Fields = seq<(string, string)>

  datatype Content =
    | ProcessingOption(application: string, version: string, option: string, value: string)
    | Row(table: string, key: Fields, action: RowAction, values: Fields)
    | VersionText(application: string, version: string, specification: string)

  datatype Executor = Agent | Person

  datatype Item = Item(id: string, content: Content, executor: Executor)

  /** What was seen in the target system for an item; a text value may be missing. */
  datatype Observed =
    | Text(value: Option<string>)
    | RowState(exists_: bool, values: map<string, Option<string>>)
    | Specification(text: string)

  function Shown(v: Option<string>): string {
    Texts.Strip(if v.Some? then v.value else "")
  }

  predicate Same(a: Option<string>, b: Option<string>) {
    Shown(a) == Shown(b)
  }

  function Lookup(m: map<string, Option<string>>, k: string): Option<string> {
    if k in m then m[k] else None
  }

  /** Does an observed state show exactly the approved values? */
  predicate MatchesApproved(item: Item, o: Observed) {
    match item.content
    case ProcessingOption(_, _, _, value) => o.Text? && Same(o.value, Some(value))
    case Row(_, _, _, values) =>
      o.RowState? && o.exists_ && forall f :: f in values ==> Same(Lookup(o.values, f.0), Some(f.1))
    case VersionText(_, _, specification) => o.Specification? && Texts.Words(o.text) == Texts.Words(specification)
  }

  /** What a person states instead of a live read: a value, row values, or a confirmation. */
  datatype Statement = Statement(reference: string, value: Option<string>, values: seq<(string, Option<string>)>,
                                 confirmed: bool)

  function UpperKeys(fields: seq<(string, Option<string>)>): map<string, Option<string>> {
    if fields == [] then map[]
    else
      var last := fields[|fields| - 1];
      UpperKeys(fields[..|fields| - 1])[Texts.Upper(last.0) := last.1]
  }

  /** The state a person's recording stores, or None where it is refused: the live read when there
      is one, otherwise what the person states, with a reference. */
  function PersonObservation(item: Item, live: Option<Observed>, s: Statement): (r: Option<Observed>)
    ensures r.Some? ==> MatchesApproved(item, r.value)
    ensures live.Some? ==> r == (if MatchesApproved(item, live.value) then live else None)
    ensures live.None? && Texts.Strip(s.reference) == "" ==> r.None?
  {
    if live.Some? then (if MatchesApproved(item, live.value) then live else None)
    else if Texts.Strip(s.reference) == "" then None
    else
      match item.content
      case ProcessingOption(_, _, _, value) =>
        if s.value.Some? && Same(s.value, Some(value)) then Some(Text(s.value)) else None
      case Row(_, _, _, values) =>
        var stated := UpperKeys(s.values);
        if forall f :: f in values ==> Same(Lookup(stated, f.0), Some(f.1)) then
          Some(RowState(true, map f | f in values :: f.0 := Lookup(stated, f.0)))
        else None
      case VersionText(_, _, specification) => if s.confirmed then Some(Specification(specification)) else None
  }

  // ---------------------------------------------------------------------------------------------
  // The record
  // ---------------------------------------------------------------------------------------------

  datatype Sort = SingleOption | ChangeSet | Technical

  datatype Status = Pending | Approved | Rejected

  /** The basis stamped on an approval: the design revision (None: the story had no design) and the
      state of the target that was seen. */
  datatype Binding = Binding(design: Option<int>, before: Option<string>, itemsBefore: map<string, Observed>)

  datatype Approval = Approval(user: string, roles: set<string>, expiresAt: int)

  datatype Delivery = Delivery(observed: Observed, executor: Executor)

  /** What people approve; it is never rewritten. */
  datatype Proposal = Proposal(id: string, sort: Sort, company: string, items: seq<Item>,
                               preparedFor: int, preparedFrom: string)

  datatype Decision = Decision(status: Status, approval: Option<Approval>, binding: Option<Binding>,
                               invalidations: seq<string>)

  datatype Execution = Execution(write: Block, build: Block, test: Block, items: map<string, Block>)

  datatype Change = Change(proposal: Proposal, decision: Decision, execution: Execution,
                           delivery: map<string, Delivery>, cncActivated: bool)

  datatype Target = OfWrite | OfBuild | OfTest | OfItem(id: string)

  function KindOf(t: Target): Kind {
    match t
    case OfWrite => Write
    case OfBuild => Build
    case OfTest => Test
    case OfItem(_) => Kind.Item
  }

  function BlockAt(c: Change, t: Target): Block {
    match t
    case OfWrite => c.execution.write
    case OfBuild => c.execution.build
    case OfTest => c.execution.test
    case OfItem(id) => if id in c.execution.items then c.execution.items[id] else FRESH
  }

  function WithBlock(c: Change, t: Target, b: Block): Change {
    match t
    case OfWrite => c.(execution := c.execution.(write := b))
    case OfBuild => c.(execution := c.execution.(build := b))
    case OfTest => c.(execution := c.execution.(test := b))
    case OfItem(id) => c.(execution := c.execution.(items := c.execution.items[id := b]))
  }

  function ItemOf(items: seq<Item>, id: string): Option<Item> {
    if items == [] then None
    else if items[0].id == id then Some(items[0])
    else ItemOf(items[1..], id)
  }

  predicate AllDelivered(c: Change) {
    forall i :: 0 <= i < |c.proposal.items| ==> c.proposal.items[i].id in c.delivery
  }

  // ---------------------------------------------------------------------------------------------
  // The changing world and the gate
  // ---------------------------------------------------------------------------------------------

  datatype Handoff = Handoff(company: string, revision: int, changeId: string, approvedRevision: Option<int>,
                             needsReassessment: bool)

  /** Everything the checks read outside the record, at one instant. Scope, catalogue and package
      checks are single answers here; `policy` is None when scope or policy cannot be read. */
  datatype World = World(
    now: int, paused: bool, company: string, policy: Option<set<string>>, validSeconds: int,
    roles: map<string, set<string>>, storyApproved: bool, handoff: Option<Handoff>,
    withinScope: bool, testWithinScope: bool, recorder: bool, cnc: bool, cncRequired: bool, packageIntact: bool,
    agentAvailable: bool, target: Option<string>, itemStates: map<string, Observed>)

  function RolesNow(w: World, user: string): set<string> {
    if user in w.roles then w.roles[user] else {}
  }

  /** Approved, unexpired, same company, and the approver's recorded and current roles still allowed. */
  predicate LiveApproval(c: Change, w: World) {
    && c.decision.status == Approved
    && c.decision.approval.Some? && c.decision.approval.value.expiresAt != 0 && w.now <= c.decision.approval.value.expiresAt
    && c.proposal.company == w.company
    && w.policy.Some?
    && c.decision.approval.value.roles * w.policy.value != {}
    && RolesNow(w, c.decision.approval.value.user) * w.policy.value != {}
    && w.storyApproved
  }

  datatype Problem = Unbound | Invalidated(why: string) | DesignGone | DesignRevised | DesignUnapproved | DesignElsewhere
                   | DesignAppeared | BeforeUnknown | CurrentUnknown | TargetChanged

  function DesignProblems(c: Change, binding: Binding, w: World): seq<Problem> {
    match (binding.design, w.handoff)
    case (Some(d), None) => [DesignGone]
    case (Some(d), Some(h)) =>
      if h.revision != d then [DesignRevised]
      else if c.proposal.sort == Technical then (if h.approvedRevision != Some(d) then [DesignUnapproved] else [])
      else if h.changeId != c.proposal.id then [DesignElsewhere]
      else []
    case (None, Some(_)) => [DesignAppeared]
    case (None, None) => []
  }

  function BeforeProblems(binding: Binding, w: World, readCurrent: bool, requireKnown: bool): seq<Problem> {
    if binding.before.None? then (if requireKnown then [BeforeUnknown] else [])
    else if !readCurrent then []
    else if w.target.None? then (if requireKnown then [CurrentUnknown] else [])
    else if w.target != binding.before then [TargetChanged]
    else []
  }

  /** Every reason the approval's basis no longer holds. */
  function Problems(c: Change, w: World, readCurrent: bool, requireKnown: bool): (out: seq<Problem>)
    ensures out == [] ==> c.decision.binding.Some? && c.decision.invalidations == [] && DesignHolds(c, w)
    ensures out == [] && requireKnown ==> c.decision.binding.value.before.Some?
    ensures out == [] && requireKnown && readCurrent ==> w.target == c.decision.binding.value.before
  {
    if c.decision.binding.None? then [Unbound]
    else
      seq(|c.decision.invalidations|, i requires 0 <= i < |c.decision.invalidations| => Invalidated(c.decision.invalidations[i]))
      + DesignProblems(c, c.decision.binding.value, w)
      + BeforeProblems(c.decision.binding.value, w, readCurrent, requireKnown)
  }

  /** The design the approval was bound to is the story's current one and still proposes (or, for a
      package, still has the design approval for) this change. */
  predicate DesignHolds(c: Change, w: World) {
    && c.decision.binding.Some?
    && match c.decision.binding.value.design
       case None => w.handoff.None?
       case Some(d) =>
         && w.handoff.Some? && w.handoff.value.revision == d
         && if c.proposal.sort == Technical then w.handoff.value.approvedRevision == Some(d)
            else w.handoff.value.changeId == c.proposal.id
  }

  predicate AnyDiverged(c: Change) {
    exists i :: 0 <= i < |c.proposal.items| && BlockAt(c, OfItem(c.proposal.items[i].id)).state == Diverged
  }

  /** The gate of a functional delivery step. */
  predicate FunctionalGate(c: Change, w: World) {
    && LiveApproval(c, w)
    && c.proposal.sort != Technical
    && Effective(c.execution.write, w.now) == Ready
    && Problems(c, w, false, false) == []
    && (c.proposal.sort == ChangeSet ==> !AnyDiverged(c))
    && w.withinScope
  }

  /** The gate of a test: the write must be known to be in the target system. */
  predicate TestGate(c: Change, w: World) {
    && LiveApproval(c, w)
    && Effective(c.execution.write, w.now) == Applied
    && Effective(c.execution.test, w.now) == Ready
    && Problems(c, w, false, false) == []
  }

  /** The gate of a technical milestone; only the check-in re-reads the target's source. */
  predicate TechnicalGate(c: Change, w: World, checkIn: bool) {
    && LiveApproval(c, w)
    && c.proposal.sort == Technical
    && w.packageIntact && w.withinScope
    && Problems(c, w, checkIn, true) == []
    && (checkIn ==> c.decision.binding.value.before == Some(c.proposal.preparedFrom))
  }

  /** The basis an approval is given against, or None where it cannot be approved. */
  function Snapshot(c: Change, w: World): (r: Option<Binding>)
    ensures r.Some? ==> c.decision.invalidations == [] && DesignHolds(c.(decision := c.decision.(binding := r)), w)
    ensures r.Some? ==> ActionsFit(c, w) && r.value.before == w.target && r.value.itemsBefore == w.itemStates
    ensures r.Some? && w.handoff.Some? ==> w.handoff.value.company == c.proposal.company && !w.handoff.value.needsReassessment
    ensures r.Some? && w.handoff.Some? && c.proposal.sort == Technical ==>
              w.handoff.value.revision == c.proposal.preparedFor
  {
    if c.decision.invalidations != [] then None
    else if !ActionsFit(c, w) then None
    else
      match w.handoff
      case None => Some(Binding(None, w.target, w.itemStates))
      case Some(h) =>
        if h.company != c.proposal.company || h.needsReassessment then None
        else if c.proposal.sort == Technical && (c.proposal.preparedFor != h.revision || h.approvedRevision != Some(h.revision)) then None
        else if c.proposal.sort != Technical && h.changeId != c.proposal.id then None
        else Some(Binding(Some(h.revision), w.target, w.itemStates))
  }

  /** An "add" must not exist yet and an "update" must exist, where the row could be read. */
  predicate ActionsFit(c: Change, w: World) {
    c.proposal.sort == ChangeSet ==>
      forall i :: 0 <= i < |c.proposal.items| && c.proposal.items[i].content.Row? && c.proposal.items[i].id in w.itemStates ==>
        var o := w.itemStates[c.proposal.items[i].id];
        var there := o.RowState? && o.exists_;
        there == c.proposal.items[i].content.action.Update?
  }
}
