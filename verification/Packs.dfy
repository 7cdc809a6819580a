/** Start-up Packs: templates from the repository, customers' packs in numbered revisions, and the
    assignment of one published revision to a role. */
module Packs {
  import opened Wrappers

  datatype Tool = ListDocuments | ReadDocument | TaskTool | Named(name: string)

  const KNOWLEDGE_TOOLS := {ListDocuments, ReadDocument}

  /** `text` stands for description, instructions, skills, inputs, outputs and limits. */
  datatype Content = Content(text: string, knowledge: set<string>, capabilities: set<Tool>)

  datatype Revision = Revision(number: nat, published: bool, content: Content, sha: string)

  /** A pack without a company is a template. */
  datatype Pack = Pack(company: Option<string>, role: string, disabled: bool, revisions: seq<Revision>)

  datatype Assignment = Assignment(pack: string, revision: nat, version: nat)

  datatype Library = Library(packs: map<string, Pack>, assignments: map<(string, string), Assignment>)

  /** Reviewed policy and the customer's documents, which change over time: the most a role's pack may
      request, and what a pack's knowledge may refer to. */
  datatype Policy = Policy(ceiling: map<string, set<Tool>>, documents: set<string>)

  type Sha = Content -> string

  const EMPTY := Library(map[], map[])

  // ---------------------------------------------------------------------------------------------
  // Content
  // ---------------------------------------------------------------------------------------------

  function Ceiling(w: Policy, role: string): set<Tool> {
    (if role in w.ceiling then w.ceiling[role] else {}) + (if role in w.ceiling then KNOWLEDGE_TOOLS else {})
  }

  /** Validated content; None where it asks for more than the role may have, or refers to documents
      that are not the customer's. Content that refers to documents gets the tools to read them. */
  function Normalise(w: Policy, role: string, raw: Content): (r: Option<Content>)
    ensures r.Some? ==> r.value.capabilities <= Ceiling(w, role) && raw.capabilities <= r.value.capabilities
    ensures r.Some? ==> r.value.knowledge == raw.knowledge <= w.documents
  {
    if role !in w.ceiling || !(raw.capabilities <= Ceiling(w, role)) || !(raw.knowledge <= w.documents) then None
    else if raw.knowledge == {} then Some(raw)
    else Some(raw.(capabilities := raw.capabilities + KNOWLEDGE_TOOLS * Ceiling(w, role)))
  }

  // ---------------------------------------------------------------------------------------------
  // Operations
  // ---------------------------------------------------------------------------------------------

  function TemplateId(role: string): string {
    "tpl-" + role
  }

  /** A customer's pack gets an id of its own, made of a fresh suffix. */
  function PackId(suffix: string): string {
    "pk-" + suffix
  }

  /** A pack this company may see: a template or its own. */
  predicate Visible(l: Library, id: string, company: string) {
    id in l.packs && (l.packs[id].company.None? || l.packs[id].company == Some(company))
  }

  /** A pack this company may change. */
  predicate Own(l: Library, id: string, company: string) {
    id in l.packs && l.packs[id].company == Some(company)
  }

  /** The revision with this number, if the pack has one. */
  function Numbered(revisions: seq<Revision>, number: nat): Option<Revision> {
    if revisions == [] then None
    else if revisions[|revisions| - 1].number == number then Some(revisions[|revisions| - 1])
    else Numbered(revisions[..|revisions| - 1], number)
  }

  function PublishedAt(l: Library, id: string, number: nat): Option<Revision> {
    if id !in l.packs then None
    else
      var r := Numbered(l.packs[id].revisions, number);
      if r.Some? && r.value.published then r else None
  }

  datatype Act =
    | ImportTemplate(role: string, source: Content)
    | CreatePack(suffix: string, company: string, role: string, raw: Content)
    | SaveDraft(company: string, id: string, raw: Content)
    | Publish(company: string, id: string, number: nat)
    | Assign(company: string, role: string, id: string, number: nat, expected: Option<nat>)
    | Unassign(company: string, role: string)
    | SetDisabled(company: string, id: string, disabled: bool)

  /** One transaction; `policy` is what the checks read at that instant. */
  datatype Step = Step(act: Act, policy: Policy)

  /** A pack as it is written. */
  datatype Write = Write(id: string, pack: Pack)

  function Redrafted(l: Library, id: string, revisions: seq<Revision>): Option<Write>
    requires id in l.packs
  {
    Some(Write(id, l.packs[id].(revisions := revisions)))
  }

  /** A published revision of the template, where the repository's definition has changed. */
  function Imported(l: Library, sha: Sha, role: string, content: Content): Option<Write> {
    var id := TemplateId(role);
    var pack := if id in l.packs then l.packs[id] else Pack(None, role, false, []);
    var n := |pack.revisions|;
    if n > 0 && pack.revisions[n - 1].sha == sha(content) then None
    else
      var number := if n > 0 then pack.revisions[n - 1].number + 1 else 1;
      Some(Write(id, pack.(revisions := pack.revisions + [Revision(number, true, content, sha(content))])))
  }

  /** The open draft rewritten, or a new draft after the last revision. */
  function Drafted(revisions: seq<Revision>, sha: Sha, content: Content): seq<Revision>
    requires revisions != []
  {
    var n := |revisions| - 1;
    if !revisions[n].published
    then revisions[n := Revision(revisions[n].number, false, content, sha(content))]
    else revisions + [Revision(revisions[n].number + 1, false, content, sha(content))]
  }

  /** The draft with this number published; None where there is no such draft. */
  function Published(revisions: seq<Revision>, number: nat): Option<seq<Revision>> {
    if revisions == [] then None
    else
      var n := |revisions| - 1;
      if revisions[n].number == number then
        if revisions[n].published then None else Some(revisions[n := revisions[n].(published := true)])
      else
        var front := Published(revisions[..n], number);
        if front.None? then None else Some(front.value + [revisions[n]])
  }

  /** A customer's pack, starting as a draft. */
  function Created(l: Library, sha: Sha, w: Policy, id: string, company: string, role: string, raw: Content): Option<Write> {
    var content := Normalise(w, role, raw);
    if content.None? || id in l.packs then None
    else Some(Write(id, Pack(Some(company), role, false, [Revision(1, false, content.value, sha(content.value))])))
  }

  function WithDisabled(l: Library, company: string, id: string, disabled: bool): Option<Write> {
    if Own(l, id, company) then Some(Write(id, l.packs[id].(disabled := disabled))) else None
  }

  function WithDraft(l: Library, sha: Sha, w: Policy, company: string, id: string, raw: Content): Option<Write> {
    if !Own(l, id, company) || l.packs[id].revisions == [] then None
    else
      var content := Normalise(w, l.packs[id].role, raw);
      if content.None? then None else Redrafted(l, id, Drafted(l.packs[id].revisions, sha, content.value))
  }

  function WithPublished(l: Library, w: Policy, company: string, id: string, number: nat): Option<Write> {
    if !Own(l, id, company) then None
    else
      var draft := Numbered(l.packs[id].revisions, number);
      var published := Published(l.packs[id].revisions, number);
      if draft.None? || Normalise(w, l.packs[id].role, draft.value.content).None? || published.None? then None
      else Redrafted(l, id, published.value)
  }

  /** The one pack a transaction writes, if any. */
  function WriteOf(l: Library, sha: Sha, step: Step): Option<Write> {
    var w := step.policy;
    match step.act
    case ImportTemplate(role, source) =>
      var content := Normalise(w, role, source);
      if content.None? then None else Imported(l, sha, role, content.value)
    case CreatePack(suffix, company, role, raw) => Created(l, sha, w, PackId(suffix), company, role, raw)
    case SaveDraft(company, id, raw) => WithDraft(l, sha, w, company, id, raw)
    case Publish(company, id, number) => WithPublished(l, w, company, id, number)
    case SetDisabled(company, id, disabled) => WithDisabled(l, company, id, disabled)
    case _ => None
  }

  /** The version a client sees: 0 where nothing is assigned. */
  function VersionOf(l: Library, key: (string, string)): nat {
    if key in l.assignments then l.assignments[key].version else 0
  }

  function Assigned(l: Library, company: string, role: string, id: string, number: nat): Library {
    var key := (company, role);
    l.(assignments := l.assignments[key := Assignment(id, number, VersionOf(l, key) + 1)])
  }

  predicate MayAssign(l: Library, w: Policy, company: string, role: string, id: string, number: nat, expected: Option<nat>) {
    && role in w.ceiling
    && Visible(l, id, company) && l.packs[id].role == role && !l.packs[id].disabled
    && PublishedAt(l, id, number).Some?
    && Normalise(w, role, PublishedAt(l, id, number).value.content).Some?
    && (expected.Some? ==> expected.value == VersionOf(l, (company, role)))
  }

  function Next(l: Library, sha: Sha, step: Step): Library {
    match step.act
    case Assign(company, role, id, number, expected) =>
      if MayAssign(l, step.policy, company, role, id, number, expected) then Assigned(l, company, role, id, number) else l
    case Unassign(company, role) => l.(assignments := l.assignments - {(company, role)})
    case _ =>
      var write := WriteOf(l, sha, step);
      if write.None? then l else l.(packs := l.packs[write.value.id := write.value.pack])
  }

  function Run(l: Library, sha: Sha, steps: seq<Step>): Library {
    if steps == [] then l else Next(Run(l, sha, steps[..|steps| - 1]), sha, steps[|steps| - 1])
  }

  // ---------------------------------------------------------------------------------------------
  // Revisions
  // ---------------------------------------------------------------------------------------------

  /** Numbered from one, checksummed, and only the last may be a draft. */
  ghost predicate WellRevised(revisions: seq<Revision>, sha: Sha) {
    && revisions != []
    && (forall i :: 0 <= i < |revisions| ==> revisions[i].number == i + 1 && revisions[i].sha == sha(revisions[i].content))
    && (forall i :: 0 <= i < |revisions| - 1 ==> revisions[i].published)
  }

  /** Templates are only ever imported: they have ids of their own, and no drafts. */
  ghost predicate WellFormed(id: string, pack: Pack, sha: Sha) {
    && WellRevised(pack.revisions, sha)
    && (pack.company.Some? <==> "pk-" <= id)
    && (pack.company.None? ==> pack.revisions[|pack.revisions| - 1].published)
  }

  /** What was published is still there, unchanged. */
  ghost predicate Keeps(before: seq<Revision>, after: seq<Revision>) {
    |before| <= |after| && forall i :: 0 <= i < |before| && before[i].published ==> after[i] == before[i]
  }

  ghost predicate PacksInv(l: Library, sha: Sha) {
    forall id :: id in l.packs ==> WellFormed(id, l.packs[id], sha)
  }

  lemma {:induction false} NumberedAt(revisions: seq<Revision>, number: nat)
    requires forall i :: 0 <= i < |revisions| ==> revisions[i].number == i + 1
    ensures Numbered(revisions, number) == if 1 <= number <= |revisions| then Some(revisions[number - 1]) else None
  {
    if revisions != [] {
      NumberedAt(revisions[..|revisions| - 1], number);
    }
  }

  lemma {:induction false} PublishedIsLast(revisions: seq<Revision>, sha: Sha, number: nat)
    requires WellRevised(revisions, sha)
    ensures var r := Published(revisions, number);
            r.Some? ==> number == |revisions| && !revisions[number - 1].published
                        && r.value == revisions[number - 1 := revisions[number - 1].(published := true)]
  {
    var n := |revisions| - 1;
    if revisions[n].number != number && n > 0 {
      PublishedIsLast(revisions[..n], sha, number);
      assert revisions[..n][n - 1] == revisions[n - 1];
    }
  }

  lemma DraftedIsWell(revisions: seq<Revision>, sha: Sha, content: Content)
    requires WellRevised(revisions, sha)
    ensures WellRevised(Drafted(revisions, sha, content), sha) && Keeps(revisions, Drafted(revisions, sha, content))
  {
  }

  lemma PublishedIsWell(revisions: seq<Revision>, sha: Sha, number: nat)
    requires WellRevised(revisions, sha) && Published(revisions, number).Some?
    ensures WellRevised(Published(revisions, number).value, sha) && Keeps(revisions, Published(revisions, number).value)
  {
    PublishedIsLast(revisions, sha, number);
  }

  // What one act writes, pack by pack.

  /** The pack is well formed and keeps what the library had published under its id, and its role and owner. */
  ghost predicate Fits(l: Library, sha: Sha, write: Write) {
    && WellFormed(write.id, write.pack, sha)
    && (write.id in l.packs ==>
          var was := l.packs[write.id];
          Keeps(was.revisions, write.pack.revisions) && write.pack.role == was.role && write.pack.company == was.company)
  }

  lemma NextRevisionIsWell(revisions: seq<Revision>, sha: Sha, content: Content)
    requires revisions != [] ==> WellRevised(revisions, sha) && revisions[|revisions| - 1].published
    ensures var more := revisions + [Revision(|revisions| + 1, true, content, sha(content))];
            WellRevised(more, sha) && Keeps(revisions, more)
  {
  }

  lemma TemplateIsNoPack(role: string)
    ensures !("pk-" <= TemplateId(role))
  {
    assert TemplateId(role)[0] == 't';
  }

  lemma ImportFits(l: Library, sha: Sha, role: string, content: Content)
    requires PacksInv(l, sha) && Imported(l, sha, role, content).Some?
    ensures Fits(l, sha, Imported(l, sha, role, content).value)
  {
    var id := TemplateId(role);
    TemplateIsNoPack(role);
    var pack := if id in l.packs then l.packs[id] else Pack(None, role, false, []);
    assert id in l.packs ==> WellFormed(id, l.packs[id], sha);
    NextRevisionIsWell(pack.revisions, sha, content);
    var n := |pack.revisions|;
    assert n > 0 ==> pack.revisions[n - 1].number == n;
  }

  lemma DraftFits(l: Library, sha: Sha, w: Policy, company: string, id: string, raw: Content)
    requires PacksInv(l, sha) && WithDraft(l, sha, w, company, id, raw).Some?
    ensures Fits(l, sha, WithDraft(l, sha, w, company, id, raw).value)
  {
    assert WellFormed(id, l.packs[id], sha);
    DraftedIsWell(l.packs[id].revisions, sha, Normalise(w, l.packs[id].role, raw).value);
  }

  lemma PublishFits(l: Library, sha: Sha, w: Policy, company: string, id: string, number: nat)
    requires PacksInv(l, sha) && WithPublished(l, w, company, id, number).Some?
    ensures Fits(l, sha, WithPublished(l, w, company, id, number).value)
  {
    assert WellFormed(id, l.packs[id], sha);
    PublishedIsWell(l.packs[id].revisions, sha, number);
  }

  lemma CreateFits(l: Library, sha: Sha, w: Policy, suffix: string, company: string, role: string, raw: Content)
    requires Created(l, sha, w, PackId(suffix), company, role, raw).Some?
    ensures Fits(l, sha, Created(l, sha, w, PackId(suffix), company, role, raw).value)
  {
    assert "pk-" <= PackId(suffix);
  }

  lemma DisableFits(l: Library, sha: Sha, company: string, id: string, disabled: bool)
    requires PacksInv(l, sha) && WithDisabled(l, company, id, disabled).Some?
    ensures Fits(l, sha, WithDisabled(l, company, id, disabled).value)
  {
    assert WellFormed(id, l.packs[id], sha);
  }

  lemma WriteFits(l: Library, sha: Sha, step: Step)
    requires PacksInv(l, sha) && WriteOf(l, sha, step).Some?
    ensures Fits(l, sha, WriteOf(l, sha, step).value)
  {
    match step.act
    case ImportTemplate(role, source) => ImportFits(l, sha, role, Normalise(step.policy, role, source).value);
    case SaveDraft(company, id, raw) => DraftFits(l, sha, step.policy, company, id, raw);
    case Publish(company, id, number) => PublishFits(l, sha, step.policy, company, id, number);
    case CreatePack(suffix, company, role, raw) => CreateFits(l, sha, step.policy, suffix, company, role, raw);
    case SetDisabled(company, id, disabled) => DisableFits(l, sha, company, id, disabled);
  }

  // What that means for the library.

  /** Every pack of the second library is well formed and keeps what the first one published. */
  ghost predicate Sound(l: Library, r: Library, sha: Sha) {
    && PacksInv(r, sha)
    && forall id :: id in l.packs ==>
         id in r.packs && Keeps(l.packs[id].revisions, r.packs[id].revisions)
         && r.packs[id].role == l.packs[id].role && r.packs[id].company == l.packs[id].company
  }

  lemma WrittenIsSound(l: Library, sha: Sha, write: Write)
    requires PacksInv(l, sha) && Fits(l, sha, write)
    ensures Sound(l, l.(packs := l.packs[write.id := write.pack]), sha)
  {
  }

  lemma NextWrites(l: Library, sha: Sha, step: Step)
    ensures var write := WriteOf(l, sha, step);
            Next(l, sha, step).packs == if write.None? then l.packs else l.packs[write.value.id := write.value.pack]
  {
  }

  lemma SoundForPacks(l: Library, r: Library, t: Library, sha: Sha)
    requires Sound(l, r, sha) && t.packs == r.packs
    ensures Sound(l, t, sha)
  {
  }

  lemma SoundStep(l: Library, sha: Sha, step: Step)
    requires PacksInv(l, sha)
    ensures Sound(l, Next(l, sha, step), sha)
  {
    NextWrites(l, sha, step);
    var write := WriteOf(l, sha, step);
    if write.Some? {
      WriteFits(l, sha, step);
      WrittenIsSound(l, sha, write.value);
      SoundForPacks(l, l.(packs := l.packs[write.value.id := write.value.pack]), Next(l, sha, step), sha);
    } else {
      SoundForPacks(l, l, Next(l, sha, step), sha);
    }
  }

  // ---------------------------------------------------------------------------------------------
  // Assignments
  // ---------------------------------------------------------------------------------------------

  /** The assignment points at a published revision of a pack for this role that the company may see. */
  predicate Resolves(l: Library, sha: Sha, company: string, role: string, a: Assignment) {
    && Visible(l, a.pack, company) && l.packs[a.pack].role == role
    && PublishedAt(l, a.pack, a.revision).Some?
    && PublishedAt(l, a.pack, a.revision).value.sha == sha(PublishedAt(l, a.pack, a.revision).value.content)
  }

  ghost predicate AssignmentsInv(l: Library, sha: Sha) {
    forall key :: key in l.assignments ==> Resolves(l, sha, key.0, key.1, l.assignments[key]) && l.assignments[key].version > 0
  }

  ghost predicate Inv(l: Library, sha: Sha) {
    PacksInv(l, sha) && AssignmentsInv(l, sha)
  }

  /** A published revision is found unchanged after every step. */
  lemma PublishedStep(l: Library, sha: Sha, step: Step, id: string, number: nat)
    requires PacksInv(l, sha) && PublishedAt(l, id, number).Some?
    ensures PublishedAt(Next(l, sha, step), id, number) == PublishedAt(l, id, number)
  {
    SoundStep(l, sha, step);
    assert WellFormed(id, l.packs[id], sha);
    NumberedAt(l.packs[id].revisions, number);
    NumberedAt(Next(l, sha, step).packs[id].revisions, number);
  }

  lemma StillResolves(l: Library, sha: Sha, step: Step, company: string, role: string, a: Assignment)
    requires PacksInv(l, sha) && Resolves(l, sha, company, role, a)
    ensures Resolves(Next(l, sha, step), sha, company, role, a)
  {
    SoundStep(l, sha, step);
    PublishedStep(l, sha, step, a.pack, a.revision);
  }

  /** An assignment that is not there yet, or changes, was made by this step and was checked. */
  lemma NewAssignment(l: Library, sha: Sha, step: Step, key: (string, string))
    requires key in Next(l, sha, step).assignments
    requires key !in l.assignments || l.assignments[key] != Next(l, sha, step).assignments[key]
    ensures step.act.Assign? && key == (step.act.company, step.act.role)
    ensures MayAssign(l, step.policy, key.0, key.1, step.act.id, step.act.number, step.act.expected)
    ensures Next(l, sha, step) == Assigned(l, key.0, key.1, step.act.id, step.act.number)
  {
  }

  lemma ChecksumHolds(l: Library, sha: Sha, id: string, number: nat)
    requires PacksInv(l, sha) && PublishedAt(l, id, number).Some?
    ensures PublishedAt(l, id, number).value.sha == sha(PublishedAt(l, id, number).value.content)
  {
    assert WellFormed(id, l.packs[id], sha);
    NumberedAt(l.packs[id].revisions, number);
  }

  lemma AssignmentsStep(l: Library, sha: Sha, step: Step)
    requires Inv(l, sha)
    ensures AssignmentsInv(Next(l, sha, step), sha)
  {
    var r := Next(l, sha, step);
    forall key | key in r.assignments
      ensures Resolves(r, sha, key.0, key.1, r.assignments[key]) && r.assignments[key].version > 0
    {
      if key in l.assignments && l.assignments[key] == r.assignments[key] {
        StillResolves(l, sha, step, key.0, key.1, l.assignments[key]);
      } else {
        NewAssignment(l, sha, step, key);
        ChecksumHolds(l, sha, step.act.id, step.act.number);
      }
    }
  }

  lemma {:induction false} Reachable(sha: Sha, steps: seq<Step>)
    ensures Inv(Run(EMPTY, sha, steps), sha)
  {
    if steps != [] {
      var l, last := Run(EMPTY, sha, steps[..|steps| - 1]), steps[|steps| - 1];
      Reachable(sha, steps[..|steps| - 1]);
      AssignmentsStep(l, sha, last);
      SoundStep(l, sha, last);
    }
  }

  /** A published revision never changes, in any continuation of any run. */
  lemma {:induction false} PublishedNeverChanges(sha: Sha, done: seq<Step>, steps: seq<Step>, id: string, number: nat)
    requires PublishedAt(Run(EMPTY, sha, done), id, number).Some?
    ensures PublishedAt(Run(Run(EMPTY, sha, done), sha, steps), id, number) == PublishedAt(Run(EMPTY, sha, done), id, number)
    ensures PacksInv(Run(Run(EMPTY, sha, done), sha, steps), sha)
  {
    Reachable(sha, done);
    if steps != [] {
      var front, last := steps[..|steps| - 1], steps[|steps| - 1];
      PublishedNeverChanges(sha, done, front, id, number);
      var l := Run(Run(EMPTY, sha, done), sha, front);
      PublishedStep(l, sha, last, id, number);
      SoundStep(l, sha, last);
    }
  }

  /** In every pack, revisions are numbered without a gap and only the highest can be a draft. */
  lemma OnlyTheHighestIsADraft(sha: Sha, steps: seq<Step>, id: string, i: nat)
    requires id in Run(EMPTY, sha, steps).packs && i < |Run(EMPTY, sha, steps).packs[id].revisions|
    ensures var revisions := Run(EMPTY, sha, steps).packs[id].revisions;
            revisions[i].number == i + 1 && (!revisions[i].published ==> i == |revisions| - 1)
  {
    Reachable(sha, steps);
    assert WellFormed(id, Run(EMPTY, sha, steps).packs[id], sha);
  }

  // ---------------------------------------------------------------------------------------------
  // The run-time snapshot
  // ---------------------------------------------------------------------------------------------

  datatype Snapshot = Snapshot(role: string, pack: string, revision: nat, content: Content)

  /** What a run is given for a role; None where the role is blocked. */
  function SnapshotOf(l: Library, sha: Sha, company: string, role: string): Option<Snapshot> {
    if (company, role) !in l.assignments then None
    else
      var a := l.assignments[(company, role)];
      if a.pack !in l.packs || !Visible(l, a.pack, company) || l.packs[a.pack].disabled then None
      else
        var r := Numbered(l.packs[a.pack].revisions, a.revision);
        if r.None? || !r.value.published || sha(r.value.content) != r.value.sha then None
        else Some(Snapshot(role, a.pack, a.revision, r.value.content))
  }

  /** A role is blocked if and only if nothing is assigned to it or its pack is disabled: an assignment
      always resolves to a published revision whose checksum verifies. */
  lemma BlockedExactly(sha: Sha, steps: seq<Step>, company: string, role: string)
    ensures var l := Run(EMPTY, sha, steps);
            var a := if (company, role) in l.assignments then Some(l.assignments[(company, role)]) else None;
            && (SnapshotOf(l, sha, company, role).None? <==> a.None? || (a.value.pack in l.packs && l.packs[a.value.pack].disabled))
            && (SnapshotOf(l, sha, company, role).Some? ==>
                  PublishedAt(l, a.value.pack, a.value.revision).Some?
                  && SnapshotOf(l, sha, company, role).value.content == PublishedAt(l, a.value.pack, a.value.revision).value.content)
  {
    Reachable(sha, steps);
    var l := Run(EMPTY, sha, steps);
    if (company, role) in l.assignments {
      assert Resolves(l, sha, company, role, l.assignments[(company, role)]);
    }
  }

  // ---------------------------------------------------------------------------------------------
  // Assignment versions
  // ---------------------------------------------------------------------------------------------

  /** The step is an assignment to this role, and is accepted. */
  predicate Assigns(l: Library, step: Step, key: (string, string)) {
    && step.act.Assign? && (step.act.company, step.act.role) == key
    && MayAssign(l, step.policy, key.0, key.1, step.act.id, step.act.number, step.act.expected)
  }

  predicate Unassigns(step: Step, key: (string, string)) {
    step.act == Unassign(key.0, key.1)
  }

  predicate EverUnassigned(steps: seq<Step>, key: (string, string)) {
    exists k :: 0 <= k < |steps| && Unassigns(steps[k], key)
  }

  /** How many assignments to the role were accepted in a run, since it was last unassigned. */
  function AssignsSince(l: Library, sha: Sha, steps: seq<Step>, key: (string, string)): nat {
    if steps == [] then 0
    else
      var front, last := steps[..|steps| - 1], steps[|steps| - 1];
      if Unassigns(last, key) then 0
      else AssignsSince(l, sha, front, key) + (if Assigns(Run(l, sha, front), last, key) then 1 else 0)
  }

  lemma VersionStep(l: Library, sha: Sha, step: Step, key: (string, string))
    ensures var r := Next(l, sha, step);
            && VersionOf(r, key) == (if Unassigns(step, key) then 0 else if Assigns(l, step, key) then VersionOf(l, key) + 1
                                     else VersionOf(l, key))
            && (!Unassigns(step, key) && !Assigns(l, step, key) ==>
                  (key in r.assignments <==> key in l.assignments)
                  && (key in l.assignments ==> r.assignments[key] == l.assignments[key]))
  {
  }

  lemma EverUnassignedLast(steps: seq<Step>, key: (string, string))
    requires steps != []
    ensures EverUnassigned(steps, key) <==> EverUnassigned(steps[..|steps| - 1], key) || Unassigns(steps[|steps| - 1], key)
  {
    var front := steps[..|steps| - 1];
    if EverUnassigned(front, key) {
      var k :| 0 <= k < |front| && Unassigns(front[k], key);
      assert Unassigns(steps[k], key);
    }
    if EverUnassigned(steps, key) && !Unassigns(steps[|steps| - 1], key) {
      var k :| 0 <= k < |steps| && Unassigns(steps[k], key);
      assert front[k] == steps[k];
    }
  }

  /** A version counts the accepted assignments since the role was last unassigned. */
  lemma {:induction false} VersionsCount(l: Library, sha: Sha, steps: seq<Step>, key: (string, string))
    ensures VersionOf(Run(l, sha, steps), key) ==
              AssignsSince(l, sha, steps, key) + (if EverUnassigned(steps, key) then 0 else VersionOf(l, key))
  {
    if steps != [] {
      var front, last := steps[..|steps| - 1], steps[|steps| - 1];
      VersionsCount(l, sha, front, key);
      VersionStep(Run(l, sha, front), sha, last, key);
      EverUnassignedLast(steps, key);
    }
  }

  function AssignmentAt(l: Library, key: (string, string)): Option<Assignment> {
    if key in l.assignments then Some(l.assignments[key]) else None
  }

  lemma {:induction false} UntouchedIsKept(l: Library, sha: Sha, steps: seq<Step>, key: (string, string))
    requires !EverUnassigned(steps, key) && AssignsSince(l, sha, steps, key) == 0
    ensures AssignmentAt(Run(l, sha, steps), key) == AssignmentAt(l, key)
  {
    if steps != [] {
      var front, last := steps[..|steps| - 1], steps[|steps| - 1];
      EverUnassignedLast(steps, key);
      UntouchedIsKept(l, sha, front, key);
      VersionStep(Run(l, sha, front), sha, last, key);
    }
  }

  /** The version a client loaded with an assignment is still taken for the current one, although the
      assignment has changed since, if and only if the role was unassigned in between and assigned
      again exactly as often as the version says, to something else. */
  lemma StaleVersionPassesExactly(l: Library, sha: Sha, steps: seq<Step>, key: (string, string))
    ensures var r, loaded := Run(l, sha, steps), VersionOf(l, key);
            (VersionOf(r, key) == loaded && AssignmentAt(r, key) != AssignmentAt(l, key))
            <==> EverUnassigned(steps, key) && AssignsSince(l, sha, steps, key) == loaded
                 && AssignmentAt(r, key) != AssignmentAt(l, key)
  {
    VersionsCount(l, sha, steps, key);
    if !EverUnassigned(steps, key) && AssignsSince(l, sha, steps, key) == 0 {
      UntouchedIsKept(l, sha, steps, key);
    }
  }

  /** While nothing is unassigned, equal versions mean equal assignments. */
  lemma VersionsTellAssignmentsApart(l: Library, sha: Sha, steps: seq<Step>, key: (string, string))
    requires !EverUnassigned(steps, key) && VersionOf(Run(l, sha, steps), key) == VersionOf(l, key)
    ensures AssignmentAt(Run(l, sha, steps), key) == AssignmentAt(l, key)
  {
    StaleVersionPassesExactly(l, sha, steps, key);
  }

  /** Where a role was unassigned, its versions start again: an assignment made from the version a
      client loaded may silently replace another one. For every two packs that may be assigned. */
  lemma UnassignReusesVersions(l: Library, sha: Sha, w: Policy, company: string, role: string,
                               p: string, n: nat, q: string, m: nat, stale: string, k: nat)
    requires (company, role) !in l.assignments
    requires MayAssign(l, w, company, role, p, n, None) && MayAssign(l, w, company, role, q, m, None)
    requires MayAssign(l, w, company, role, stale, k, None)
    ensures var loaded := Next(l, sha, Step(Assign(company, role, p, n, None), w));
            var other := Next(Next(loaded, sha, Step(Unassign(company, role), w)), sha, Step(Assign(company, role, q, m, None), w));
            var overwritten := Next(other, sha, Step(Assign(company, role, stale, k, Some(1)), w));
            && loaded.assignments[(company, role)] == Assignment(p, n, 1)
            && other.assignments[(company, role)] == Assignment(q, m, 1)
            && overwritten.assignments[(company, role)] == Assignment(stale, k, 2)
  {
  }

  // ---------------------------------------------------------------------------------------------
  // The stored packs
  // ---------------------------------------------------------------------------------------------

  lemma ValidStep(l: Library, sha: Sha, step: Step)
    requires Inv(l, sha)
    ensures Inv(Next(l, sha, step), sha)
  {
    SoundStep(l, sha, step);
    AssignmentsStep(l, sha, step);
  }

  /** What was just assigned is what the next run reads. */
  lemma AssignedIsRead(l: Library, sha: Sha, w: Policy, company: string, role: string, id: string, number: nat,
                       expected: Option<nat>)
    requires Inv(l, sha) && MayAssign(l, w, company, role, id, number, expected)
    ensures var s := SnapshotOf(Assigned(l, company, role, id, number), sha, company, role);
            s.Some? && s.value.pack == id && s.value.revision == number
  {
    ChecksumHolds(l, sha, id, number);
  }

  /** The draft rewritten or opened, and its number. */
  method Redraft(revisions: seq<Revision>, sha: Sha, content: Content) returns (r: seq<Revision>, number: nat)
    requires WellRevised(revisions, sha)
    ensures r == Drafted(revisions, sha, content) && number == |r|
  {
    var n := |revisions| - 1;
    var last := revisions[n];
    if !last.published {
      number := last.number;
      r := revisions[n := Revision(number, false, content, sha(content))];
    } else {
      number := last.number + 1;
      r := revisions + [Revision(number, false, content, sha(content))];
    }
  }

  class PackStore {
    const sha: Sha
    var packs: map<string, Pack>
    var assignments: map<(string, string), Assignment>

    function View(): Library
      reads this
    {
      Library(packs, assignments)
    }

    ghost predicate Valid()
      reads this
    {
      Inv(View(), sha)
    }

    constructor (sha: Sha)
      ensures this.sha == sha && View() == EMPTY && Valid()
    {
      this.sha, packs, assignments := sha, map[], map[];
    }

    /** Imports a role's reviewed definition; nothing is written where it has not changed. */
    method EnsureTemplate(role: string, source: Content, w: Policy)
      requires Valid()
      modifies this`packs
      ensures Valid() && View() == Next(old(View()), sha, Step(ImportTemplate(role, source), w))
    {
      ghost var before := View();
      ValidStep(before, sha, Step(ImportTemplate(role, source), w));
      var content := Normalise(w, role, source);
      if content.None? {
        return;
      }
      var id := TemplateId(role);
      var pack := Pack(None, role, false, []);
      if id in packs {
        pack := packs[id];
      }
      var number := 1;
      if |pack.revisions| > 0 {
        var last := pack.revisions[|pack.revisions| - 1];
        if last.sha == sha(content.value) {
          return;
        }
        number := last.number + 1;
      }
      packs := packs[id := pack.(revisions := pack.revisions + [Revision(number, true, content.value, sha(content.value))])];
    }

    /** Edits the open draft, or opens one after the latest published revision. */
    method Edit(company: string, id: string, raw: Content, w: Policy) returns (number: Option<nat>)
      requires Valid()
      modifies this`packs
      ensures Valid() && View() == Next(old(View()), sha, Step(SaveDraft(company, id, raw), w))
      ensures number.Some? ==> id in packs && number.value == |packs[id].revisions|
    {
      ghost var before := View();
      ValidStep(before, sha, Step(SaveDraft(company, id, raw), w));
      if id !in packs || packs[id].company != Some(company) {
        return None;
      }
      var content := Normalise(w, packs[id].role, raw);
      if content.None? {
        return None;
      }
      assert WellFormed(id, packs[id], sha);
      var revisions, rev := Redraft(packs[id].revisions, sha, content.value);
      packs := packs[id := packs[id].(revisions := revisions)];
      return Some(rev);
    }

    /** Publishes a draft, validated against today's policy. */
    method PublishDraft(company: string, id: string, number: nat, w: Policy) returns (ok: bool)
      requires Valid()
      modifies this`packs
      ensures Valid() && View() == Next(old(View()), sha, Step(Publish(company, id, number), w))
      ensures ok ==> PublishedAt(View(), id, number).Some?
    {
      ghost var before := View();
      ValidStep(before, sha, Step(Publish(company, id, number), w));
      if id !in packs || packs[id].company != Some(company) {
        return false;
      }
      assert WellFormed(id, packs[id], sha);
      var revisions := packs[id].revisions;
      NumberedAt(revisions, number);
      PublishedOnlyIfDraft(revisions, sha, number);
      var r := Numbered(revisions, number);
      if r.None? || r.value.published || Normalise(w, packs[id].role, r.value.content).None? {
        return false;
      }
      revisions := revisions[number - 1 := r.value.(published := true)];
      NumberedAt(revisions, number);
      packs := packs[id := packs[id].(revisions := revisions)];
      return true;
    }

    /** The checks of an assignment; the version it replaces, or 0 for none. */
    method CheckAssignment(company: string, role: string, id: string, number: nat, expected: Option<nat>, w: Policy)
      returns (version: Option<nat>)
      ensures version.Some? <==> MayAssign(View(), w, company, role, id, number, expected)
      ensures version.Some? ==>
                version.value == if (company, role) in assignments then assignments[(company, role)].version else 0
    {
      if role !in w.ceiling || id !in packs || (packs[id].company.Some? && packs[id].company != Some(company)) {
        return None;
      }
      if packs[id].role != role || packs[id].disabled {
        return None;
      }
      var r := Numbered(packs[id].revisions, number);
      if r.None? || !r.value.published || Normalise(w, role, r.value.content).None? {
        return None;
      }
      var current := 0;
      if (company, role) in assignments {
        current := assignments[(company, role)].version;
      }
      if expected.Some? && expected.value != current {
        return None;
      }
      return Some(current);
    }

    /** Points a role at one published revision; an earlier one is the rollback. */
    method AssignRole(company: string, role: string, id: string, number: nat, expected: Option<nat>, w: Policy)
      returns (ok: bool)
      requires Valid()
      modifies this`assignments
      ensures Valid() && View() == Next(old(View()), sha, Step(Assign(company, role, id, number, expected), w))
      ensures ok ==> SnapshotOf(View(), sha, company, role).Some?
                     && SnapshotOf(View(), sha, company, role).value.revision == number
    {
      ghost var before := View();
      ValidStep(before, sha, Step(Assign(company, role, id, number, expected), w));
      var version := CheckAssignment(company, role, id, number, expected, w);
      if version.None? {
        return false;
      }
      AssignedIsRead(before, sha, w, company, role, id, number, expected);
      assignments := assignments[(company, role) := Assignment(id, number, version.value + 1)];
      assert View() == Assigned(before, company, role, id, number);
      return true;
    }
  }

  lemma PublishedOnlyIfDraft(revisions: seq<Revision>, sha: Sha, number: nat)
    requires WellRevised(revisions, sha)
    ensures Published(revisions, number).Some? <==> 1 <= number <= |revisions| && !revisions[number - 1].published
    ensures Published(revisions, number).Some? ==>
              Published(revisions, number).value == revisions[number - 1 := revisions[number - 1].(published := true)]
  {
  }
}
