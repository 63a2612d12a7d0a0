/** The data steps of the document-lifecycle migration
    (backend/alembic/versions/0016_doc_lifecycle.py): one knowledge document per version
    tree, its active version, and a lifecycle state for every document. Tables are maps
    from primary keys to rows; nothing is assumed of the supersedes pointers. */
module DocumentLifecycle {
  import opened Signals

  datatype Status = Pending | Processing | Ready | Failed

  datatype Lifecycle = Archived | Broken | InProgress | Active | Superseded

  datatype Document = Document(
    userId: int, folderId: Option<int>, title: Option<string>, filename: string, tags: seq<string>,
    createdAt: int, updatedAt: int, versionNumber: int, archived: bool, status: Status,
    supersedes: Option<int>,
    knowledge: Option<int>, lifecycle: Lifecycle, isActive: bool)

  datatype Knowledge = Knowledge(
    userId: int, folderId: Option<int>, title: string, tags: seq<string>,
    createdAt: int, updatedAt: int, activeVersion: Option<int>)

  type Table = map<int, Document>

  // --- Version trees ---------------------------------------------------------------------

  /** Following `k` supersedes pointers from `id` leads to `root`, which supersedes nothing. */
  predicate Descends(t: Table, id: int, root: int, k: nat)
    decreases k
  {
    && id in t
    && if k == 0 then t[id].supersedes.None? && id == root
       else t[id].supersedes.Some? && Descends(t, t[id].supersedes.value, root, k - 1)
  }

  ghost predicate HasRoot(t: Table, id: int, root: int) {
    exists k: nat :: Descends(t, id, root, k)
  }

  lemma {:induction false} RootUnique(t: Table, id: int, r: int, k: nat, s: int, m: nat)
    requires Descends(t, id, r, k) && Descends(t, id, s, m)
    ensures r == s && k == m
    decreases k
  {
    if k > 0 && m > 0 {
      RootUnique(t, t[id].supersedes.value, r, k - 1, s, m - 1);
    }
  }

  /** A chain of j pointers passes a document k pointers away from the root. */
  lemma {:induction false} PassesLevel(t: Table, id: int, root: int, j: nat, k: nat) returns (passed: int)
    requires Descends(t, id, root, j) && k <= j
    ensures Descends(t, passed, root, k)
    decreases j
  {
    if j == k {
      passed := id;
    } else {
      passed := PassesLevel(t, t[id].supersedes.value, root, j - 1, k);
    }
  }

  type Row = (int, int)

  predicate DistinctIds(rows: seq<Row>) {
    forall i, j :: 0 <= i < j < |rows| ==> rows[i].0 != rows[j].0
  }

  function Ids(rows: seq<Row>): set<int> {
    set r | r in rows :: r.0
  }

  /** One round of the recursive term: the documents that supersede a row of `work`. */
  predicate Joined(t: Table, work: seq<Row>, r: Row) {
    r.0 in t && t[r.0].supersedes.Some? && (t[r.0].supersedes.value, r.1) in work
  }

  lemma Inhabited(s: set<int>)
    requires s != {}
    ensures exists x :: x in s
  {
    if forall x :: x !in s {
      assert false;
    }
  }

  method Join(t: Table, work: seq<Row>) returns (next: seq<Row>)
    requires DistinctIds(work)
    ensures forall r :: r in next <==> Joined(t, work, r)
    ensures DistinctIds(next)
  {
    next := [];
    var children := t.Keys;
    while children != {}
      invariant children <= t.Keys
      invariant forall r :: r in next <==> Joined(t, work, r) && r.0 !in children
      invariant DistinctIds(next)
      decreases children
    {
      Inhabited(children);
      var child :| child in children;
      ghost var before := next;
      for i := 0 to |work|
        invariant next == before || (exists j :: 0 <= j < i && t[child].supersedes == Some(work[j].0)
                                       && next == before + [(child, work[j].1)])
        invariant forall j :: 0 <= j < i && t[child].supersedes == Some(work[j].0) ==>
                                next == before + [(child, work[j].1)]
      {
        if t[child].supersedes == Some(work[i].0) {
          next := next + [(child, work[i].1)];
        }
      }
      children := children - {child};
    }
  }

  /** The k-th round lists the documents exactly k pointers below a root. */
  ghost predicate Level(t: Table, work: seq<Row>, k: nat) {
    DistinctIds(work) && forall r: Row :: r in work <==> Descends(t, r.0, r.1, k)
  }

  ghost predicate RootWithin(t: Table, r: Row, k: nat) {
    exists j: nat :: j <= k && Descends(t, r.0, r.1, j)
  }

  ghost predicate Levels(t: Table, rows: seq<Row>, k: nat) {
    DistinctIds(rows) && forall r: Row :: r in rows <==> RootWithin(t, r, k)
  }

  /** The non-recursive term. */
  method Roots(t: Table) returns (rows: seq<Row>)
    ensures Level(t, rows, 0)
  {
    rows := [];
    var ids := t.Keys;
    while ids != {}
      invariant ids <= t.Keys
      invariant forall r: Row :: r in rows <==> Descends(t, r.0, r.1, 0) && r.0 !in ids
      invariant DistinctIds(rows)
      decreases ids
    {
      Inhabited(ids);
      var id :| id in ids;
      if t[id].supersedes.None? {
        rows := rows + [(id, id)];
      }
      ids := ids - {id};
    }
  }

  /** WITH RECURSIVE version_tree: it ends on every table, pointer cycles included, lists no
      document twice, and lists exactly the documents that descend from a root. */
  method VersionTree(t: Table) returns (rows: seq<Row>)
    ensures DistinctIds(rows)
    ensures forall r: Row :: r in rows <==> HasRoot(t, r.0, r.1)
  {
    hide Level, Levels;
    rows := Roots(t);
    var work := rows;
    ghost var k := 0;
    FirstLevel(t, work);
    while work != []
      invariant Level(t, work, k) && Levels(t, rows, k)
      decreases t.Keys - Ids(rows), |work|
    {
      LevelDistinct(t, work, k);
      var next := Join(t, work);
      NextLevel(t, work, next, k);
      UnionAll(t, rows, next, k);
      rows := rows + next;
      work := next;
      k := k + 1;
      assert next == [] ==> rows + next == rows;
    }
    NoMoreLevels(t, rows, k);
  }

  lemma FirstLevel(t: Table, rows: seq<Row>)
    requires Level(t, rows, 0)
    ensures Levels(t, rows, 0)
  {
    forall r: Row
      ensures r in rows <==> RootWithin(t, r, 0)
    {
      assert RootWithin(t, r, 0) <==> Descends(t, r.0, r.1, 0);
    }
  }

  lemma LevelDistinct(t: Table, work: seq<Row>, k: nat)
    requires Level(t, work, k)
    ensures DistinctIds(work)
  {
  }

  lemma NextLevel(t: Table, work: seq<Row>, next: seq<Row>, k: nat)
    requires Level(t, work, k) && DistinctIds(next) && forall r :: r in next <==> Joined(t, work, r)
    ensures Level(t, next, k + 1)
  {
    forall r: Row
      ensures r in next <==> Descends(t, r.0, r.1, k + 1)
    {
      assert r in next <==> Joined(t, work, r);
    }
  }

  lemma UnionAll(t: Table, rows: seq<Row>, next: seq<Row>, k: nat)
    requires Levels(t, rows, k) && Level(t, next, k + 1)
    ensures Levels(t, rows + next, k + 1)
    ensures next != [] ==> t.Keys - Ids(rows + next) < t.Keys - Ids(rows)
  {
    forall r, s | r in rows && s in next
      ensures r.0 != s.0
    {
      var j: nat :| j <= k && Descends(t, r.0, r.1, j);
      if r.0 == s.0 {
        RootUnique(t, r.0, r.1, j, s.1, k + 1);
      }
    }
    forall r: Row
      ensures r in rows + next <==> RootWithin(t, r, k + 1)
    {
      assert RootWithin(t, r, k + 1) <==> RootWithin(t, r, k) || Descends(t, r.0, r.1, k + 1);
    }
    if next != [] {
      assert next[0] in next && next[0] in rows + next;
      assert next[0].0 in Ids(rows + next) && next[0].0 !in Ids(rows) && next[0].0 in t;
    }
  }

  lemma NothingAt(t: Table, r: Row, k: nat)
    requires Level(t, [], k)
    ensures !Descends(t, r.0, r.1, k)
  {
    var none: seq<Row> := [];
    assert r !in none;
  }

  lemma NoMoreLevels(t: Table, rows: seq<Row>, k: nat)
    requires Level(t, [], k) && Levels(t, rows, k)
    ensures DistinctIds(rows) && forall r: Row :: r in rows <==> HasRoot(t, r.0, r.1)
  {
    forall r: Row
      ensures r in rows <==> HasRoot(t, r.0, r.1)
    {
      if HasRoot(t, r.0, r.1) {
        var j: nat :| Descends(t, r.0, r.1, j);
        if j > k {
          var passed := PassesLevel(t, r.0, r.1, j, k);
          NothingAt(t, (passed, r.1), k);
        }
        assert RootWithin(t, r, k);
      }
    }
  }

  // --- What the migration establishes ----------------------------------------------------

  /** The knowledge document of a document: its root, or itself when no root is reached. */
  ghost function Owner(t: Table, id: int): int {
    if exists r :: HasRoot(t, id, r) then
      var r :| HasRoot(t, id, r); r
    else id
  }

  lemma OwnerIsRoot(t: Table, id: int, root: int)
    requires HasRoot(t, id, root)
    ensures Owner(t, id) == root && HasRoot(t, root, root)
  {
    var k: nat :| Descends(t, id, root, k);
    var r := Owner(t, id);
    var m: nat :| Descends(t, id, r, m);
    RootUnique(t, id, root, k, r, m);
    var passed := PassesLevel(t, id, root, k, 0);
    assert Descends(t, root, root, 0);
  }

  ghost function Owners(t: Table): set<int> {
    set id | id in t :: Owner(t, id)
  }

  /** Owners are the roots and the documents without a root. */
  lemma OwnersAre(t: Table)
    ensures forall k :: k in Owners(t)
              <==> k in t && (t[k].supersedes.None? || !exists r :: HasRoot(t, k, r))
  {
    forall k | k in t && (t[k].supersedes.None? || !exists r :: HasRoot(t, k, r))
      ensures Owner(t, k) == k
    {
      if t[k].supersedes.None? {
        assert Descends(t, k, k, 0);
        OwnerIsRoot(t, k, k);
      }
    }
    forall id | id in t && exists r :: HasRoot(t, id, r)
      ensures Owner(t, id) in t && t[Owner(t, id)].supersedes.None?
    {
      var r :| HasRoot(t, id, r);
      OwnerIsRoot(t, id, r);
      var k: nat :| Descends(t, r, r, k);
      var passed := PassesLevel(t, r, r, k, 0);
    }
  }

  predicate SamePointers(t: Table, u: Table) {
    t.Keys == u.Keys && forall id :: id in t ==> t[id].supersedes == u[id].supersedes
  }

  lemma {:induction false} SameDescent(t: Table, u: Table, id: int, root: int, k: nat)
    requires SamePointers(t, u) && Descends(t, id, root, k)
    ensures Descends(u, id, root, k)
    decreases k
  {
    if k > 0 {
      SameDescent(t, u, t[id].supersedes.value, root, k - 1);
    }
  }

  lemma SameOwner(t: Table, u: Table, id: int)
    requires SamePointers(t, u)
    ensures Owner(t, id) == Owner(u, id)
  {
    if r :| HasRoot(t, id, r) {
      var k: nat :| Descends(t, id, r, k);
      SameDescent(t, u, id, r, k);
      OwnerIsRoot(t, id, r);
      OwnerIsRoot(u, id, r);
    } else if r :| HasRoot(u, id, r) {
      var k: nat :| Descends(u, id, r, k);
      SameDescent(u, t, id, r, k);
      assert HasRoot(t, id, r);
    }
  }

  /** The row with the defaults of the new columns. */
  function Legacy(d: Document): Document {
    d.(knowledge := None, lifecycle := Active, isActive := true)
  }

  function Name(d: Document): string {
    if d.title.Some? then d.title.value else d.filename
  }

  function KnowledgeFrom(d: Document): Knowledge {
    Knowledge(d.userId, d.folderId, Name(d), d.tags, d.createdAt, d.updatedAt, None)
  }

  predicate Candidate(d: Document, k: int) {
    !d.archived && d.status.Ready? && d.knowledge == Some(k)
  }

  /** The version number decides, then the time of creation. */
  predicate AtMostAsNew(c: Document, v: Document) {
    c.versionNumber <= v.versionNumber && (c.versionNumber == v.versionNumber ==> c.createdAt <= v.createdAt)
  }

  /** `v` is a newest ready, unarchived version of knowledge document k. */
  ghost predicate Newest(t: Table, k: int, v: int) {
    && v in t && Candidate(t[v], k)
    && forall c :: c in t && Candidate(t[c], k) ==> AtMostAsNew(t[c], t[v])
  }

  ghost predicate NoCandidate(t: Table, k: int) {
    forall c :: c in t ==> !Candidate(t[c], k)
  }

  /** Only the three new columns may differ. */
  predicate SameLegacy(a: Document, b: Document) {
    && a.userId == b.userId && a.folderId == b.folderId && a.title == b.title && a.filename == b.filename
    && a.tags == b.tags && a.createdAt == b.createdAt && a.updatedAt == b.updatedAt
    && a.versionNumber == b.versionNumber && a.archived == b.archived && a.status == b.status
    && a.supersedes == b.supersedes
  }

  ghost predicate OwnersAssigned(legacy: Table, t: Table) {
    && t.Keys == legacy.Keys
    && forall id :: id in t ==> SameLegacy(legacy[id], t[id]) && t[id].knowledge == Some(Owner(legacy, id))
  }

  /** The knowledge documents are exactly the owners of documents. */
  ghost predicate OwnersExist(legacy: Table, knowledge: map<int, Knowledge>) {
    knowledge.Keys == Owners(legacy)
  }

  /** A knowledge document belongs to the user of the document that founded it, points to a
      newest version or, if there is none ready and unarchived, to nothing, and otherwise reads
      like its active version or its founder. */
  ghost predicate KnowledgeOk(legacy: Table, t: Table, k: int, row: Knowledge) {
    && k in legacy && row.userId == legacy[k].userId && row.createdAt == legacy[k].createdAt
    && match row.activeVersion
       case None => NoCandidate(t, k) && ReadsLike(row, legacy[k])
       case Some(v) => Newest(t, k, v) && ReadsLike(row, t[v])
  }

  /** Title, folder, tags and update time are those of the document; its file name stands in
      for a missing title. */
  predicate ReadsLike(row: Knowledge, d: Document) {
    && (if d.title.None? then row.title == d.filename else d.title == Some(row.title))
    && row.folderId == d.folderId && row.tags == d.tags && row.updatedAt == d.updatedAt
  }

  predicate IsActiveVersion(knowledge: map<int, Knowledge>, id: int) {
    exists k :: k in knowledge && knowledge[k].activeVersion == Some(id)
  }

  ghost predicate StateOk(d: Document) {
    match d.lifecycle
    case Archived => d.archived
    case Broken => !d.archived && d.status.Failed?
    case InProgress => !d.archived && (d.status.Pending? || d.status.Processing?)
    case Active => !d.archived && d.status.Ready? && d.isActive
    case Superseded => !d.archived && d.status.Ready? && !d.isActive
  }

  ghost predicate Migrated(legacy: Table, t: Table, knowledge: map<int, Knowledge>) {
    && OwnersAssigned(legacy, t) && OwnersExist(legacy, knowledge)
    && (forall k :: k in knowledge ==> KnowledgeOk(legacy, t, k, knowledge[k]))
    && (forall id :: id in t ==>
          && StateOk(t[id])
          && (t[id].isActive <==> exists k :: k in knowledge && knowledge[k].activeVersion == Some(id)))
  }

  // --- The statements --------------------------------------------------------------------

  /** SELECT DISTINCT ON (knowledge_document_id): ties are broken arbitrarily. */
  method Latest(t: Table) returns (latest: map<int, int>)
    ensures forall k :: k in latest ==> Newest(t, k, latest[k])
    ensures forall k :: k !in latest ==> NoCandidate(t, k)
  {
    latest := map[];
    var ids := t.Keys;
    while ids != {}
      invariant ids <= t.Keys
      invariant forall k :: k in latest ==> latest[k] in t && Candidate(t[latest[k]], k)
      invariant forall k, c :: k in latest && c in t && c !in ids && Candidate(t[c], k) ==>
                  AtMostAsNew(t[c], t[latest[k]])
      invariant forall k, c :: k !in latest && c in t && c !in ids ==> !Candidate(t[c], k)
      decreases ids
    {
      Inhabited(ids);
      var id :| id in ids;
      var d := t[id];
      if !d.archived && d.status.Ready? && d.knowledge.Some? {
        var k := d.knowledge.value;
        if k !in latest || d.versionNumber > t[latest[k]].versionNumber
           || (d.versionNumber == t[latest[k]].versionNumber && d.createdAt > t[latest[k]].createdAt) {
          latest := latest[k := id];
        }
      }
      ids := ids - {id};
    }
  }

  function StateOf(d: Document): Lifecycle {
    if d.archived then Archived
    else if d.status.Failed? then Broken
    else if d.status.Pending? || d.status.Processing? then InProgress
    else if d.isActive then Active
    else Superseded
  }

  ghost function Attached(t: Table, id: int): Document
    requires id in t
  {
    if exists r :: HasRoot(t, id, r) then t[id].(knowledge := Some(Owner(t, id))) else t[id]
  }

  function Refreshed(t: Table, row: Knowledge): Knowledge {
    if row.activeVersion.Some? && row.activeVersion.value in t then
      var d := t[row.activeVersion.value];
      row.(title := Name(d), folderId := d.folderId, tags := d.tags, updatedAt := d.updatedAt)
    else row
  }

  ghost predicate FreshRows(legacy: Table, knowledge: map<int, Knowledge>) {
    forall k :: k in knowledge ==> k in legacy && knowledge[k] == KnowledgeFrom(legacy[k])
  }

  /** Tables that differ in the two marks at most. */
  ghost predicate SameView(t: Table, u: Table) {
    && t.Keys == u.Keys
    && forall id :: id in t ==> t[id].(isActive := u[id].isActive, lifecycle := u[id].lifecycle) == u[id]
  }

  lemma OwnersFound(legacy: Table, knowledge: map<int, Knowledge>)
    requires forall k :: k in knowledge <==>
               k in legacy && (legacy[k].supersedes.None? || !exists r :: HasRoot(legacy, k, r))
    ensures OwnersExist(legacy, knowledge)
  {
    OwnersAre(legacy);
    assert forall k :: k in knowledge.Keys <==> k in Owners(legacy);
  }

  lemma SameOwners(legacy: Table, widened: Table, t: Table, knowledge: map<int, Knowledge>)
    requires widened.Keys == legacy.Keys && forall id :: id in legacy ==> widened[id] == Legacy(legacy[id])
    requires OwnersAssigned(widened, t) && OwnersExist(widened, knowledge) && FreshRows(widened, knowledge)
    ensures OwnersAssigned(legacy, t) && OwnersExist(legacy, knowledge) && FreshRows(legacy, knowledge)
  {
    hide Owner;
    forall id | id in legacy
      ensures Owner(legacy, id) == Owner(widened, id)
    {
      SameOwner(legacy, widened, id);
    }
    assert Owners(legacy) == Owners(widened);
  }

  lemma SameRows(legacy: Table, t: Table, u: Table, knowledge: map<int, Knowledge>)
    requires SameView(t, u)
    ensures OwnersAssigned(legacy, t) ==> OwnersAssigned(legacy, u)
    ensures forall k :: k in knowledge && KnowledgeOk(legacy, t, k, knowledge[k]) ==>
              KnowledgeOk(legacy, u, k, knowledge[k])
  {
    assert forall c, k :: c in t ==> Candidate(t[c], k) == Candidate(u[c], k);
  }

  class Migration {
    var documents: Table
    var knowledge: map<int, Knowledge>

    constructor (documents: Table)
      ensures this.documents == documents
    {
      this.documents := documents;
    }

    /** The new table and columns, with their defaults. */
    method AddColumns()
      modifies this
      ensures knowledge == map[] && documents.Keys == old(documents).Keys
      ensures forall id :: id in documents ==> documents[id] == Legacy(old(documents)[id])
    {
      knowledge := map[];
      documents := map id | id in documents :: Legacy(documents[id]);
    }

    /** One knowledge document per root, then every descendant attached to it. */
    method AttachTrees()
      modifies this
      ensures forall k :: k in knowledge <==> k in old(documents) && old(documents)[k].supersedes.None?
      ensures forall k :: k in knowledge ==> knowledge[k] == KnowledgeFrom(old(documents)[k])
      ensures documents.Keys == old(documents).Keys
      ensures forall id :: id in documents ==> documents[id] == Attached(old(documents), id)
    {
      var t := documents;
      knowledge := map id | id in t && t[id].supersedes.None? :: KnowledgeFrom(t[id]);
      var rows := VersionTree(t);
      for i := 0 to |rows|
        invariant documents.Keys == t.Keys
        invariant knowledge == map id | id in t && t[id].supersedes.None? :: KnowledgeFrom(t[id])
        invariant forall id :: id in t ==>
                    documents[id] == if id in Ids(rows[..i]) then Attached(t, id) else t[id]
      {
        var (id, root) := rows[i];
        assert rows[i] in rows && HasRoot(t, id, root);
        OwnerIsRoot(t, id, root);
        assert Ids(rows[..i + 1]) == Ids(rows[..i]) + {id} by {
          assert rows[..i + 1] == rows[..i] + [rows[i]];
        }
        documents := documents[id := documents[id].(knowledge := Some(root))];
      }
      forall id | id in t
        ensures documents[id] == Attached(t, id)
      {
        assert rows[..|rows|] == rows;
        if r :| HasRoot(t, id, r) {
          assert (id, r) in rows;
        }
      }
    }

    /** Documents no tree reached found a knowledge document of their own. */
    method Backfill()
      modifies this
      ensures documents.Keys == old(documents).Keys
      ensures forall id :: id in documents ==>
                documents[id] == if old(documents)[id].knowledge.None?
                                 then old(documents)[id].(knowledge := Some(id)) else old(documents)[id]
      ensures forall k :: k in knowledge <==>
                k in old(knowledge) || (k in documents && old(documents)[k].knowledge.None?)
      ensures forall k :: k in knowledge ==>
                knowledge[k] == if k in old(knowledge) then old(knowledge)[k] else KnowledgeFrom(old(documents)[k])
    {
      knowledge := (map id | id in documents && documents[id].knowledge.None? :: KnowledgeFrom(documents[id]))
                   + knowledge;
      documents := map id | id in documents ::
        if documents[id].knowledge.None? then documents[id].(knowledge := Some(id)) else documents[id];
    }

    /** Every document has its owner, and every owner exists. */
    method AssignOwners()
      requires knowledge == map[] && forall id :: id in documents ==> documents[id].knowledge.None?
      modifies this
      ensures OwnersAssigned(old(documents), documents) && OwnersExist(old(documents), knowledge)
      ensures FreshRows(old(documents), knowledge)
    {
      ghost var legacy := documents;
      AttachTrees();
      Backfill();
      OwnersFound(legacy, knowledge);
    }

    method ChooseActive()
      modifies `knowledge
      ensures knowledge.Keys == old(knowledge).Keys
      ensures forall k :: k in knowledge ==>
                && knowledge[k].(activeVersion := old(knowledge)[k].activeVersion) == old(knowledge)[k]
                && (if NoCandidate(documents, k) then knowledge[k] == old(knowledge)[k]
                    else knowledge[k].activeVersion.Some? && Newest(documents, k, knowledge[k].activeVersion.value))
    {
      var latest := Latest(documents);
      knowledge := map k | k in knowledge ::
        if k in latest then knowledge[k].(activeVersion := Some(latest[k])) else knowledge[k];
    }

    method CopyFromActive()
      modifies `knowledge
      ensures knowledge.Keys == old(knowledge).Keys
      ensures forall k :: k in knowledge ==> knowledge[k] == Refreshed(documents, old(knowledge)[k])
    {
      knowledge := map k | k in knowledge :: Refreshed(documents, knowledge[k]);
    }

    method SetFlags()
      modifies `documents
      ensures documents.Keys == old(documents).Keys
      ensures forall id :: id in documents ==>
                && documents[id].isActive == IsActiveVersion(knowledge, id)
                && documents[id].(isActive := old(documents)[id].isActive) == old(documents)[id]
    {
      documents := map id | id in documents :: documents[id].(isActive := false);
      documents := map id | id in documents ::
        if IsActiveVersion(knowledge, id) then documents[id].(isActive := true) else documents[id];
    }

    method SetStates()
      modifies `documents
      ensures documents.Keys == old(documents).Keys
      ensures forall id :: id in documents ==>
                && StateOk(documents[id])
                && documents[id].(lifecycle := old(documents)[id].lifecycle) == old(documents)[id]
    {
      documents := map id | id in documents :: documents[id].(lifecycle := StateOf(documents[id]));
    }

    method Prepare()
      modifies this
      ensures OwnersAssigned(old(documents), documents) && OwnersExist(old(documents), knowledge)
      ensures FreshRows(old(documents), knowledge)
    {
      AddColumns();
      ghost var widened := documents;
      AssignOwners();
      SameOwners(old(documents), widened, documents, knowledge);
    }

    method PickVersions(ghost legacy: Table)
      requires FreshRows(legacy, knowledge)
      modifies `knowledge
      ensures knowledge.Keys == old(knowledge).Keys
      ensures forall k :: k in knowledge ==> KnowledgeOk(legacy, documents, k, knowledge[k])
    {
      ChooseActive();
      CopyFromActive();
    }

    method Mark()
      modifies `documents
      ensures SameView(old(documents), documents)
      ensures forall id :: id in documents ==>
                (documents[id].isActive <==> IsActiveVersion(knowledge, id)) && StateOk(documents[id])
    {
      SetFlags();
      SetStates();
    }

    /** The whole migration, on any table. */
    method Upgrade()
      modifies this
      ensures Migrated(old(documents), documents, knowledge)
    {
      hide OwnersAssigned, KnowledgeOk, Owners, SameView;
      Prepare();
      PickVersions(old(documents));
      ghost var before := documents;
      Mark();
      SameRows(old(documents), before, documents, knowledge);
    }
  }

  // --- Consequences ----------------------------------------------------------------------

  /** A version shares the knowledge document of the version it supersedes, and a document
      whose pointers reach no root stands alone. */
  lemma TreesShareKnowledge(legacy: Table, t: Table, knowledge: map<int, Knowledge>, id: int)
    requires Migrated(legacy, t, knowledge) && id in t
    ensures t[id].knowledge.Some? && t[id].knowledge.value in knowledge
    ensures forall p, r :: legacy[id].supersedes == Some(p) && HasRoot(legacy, p, r) ==>
              t[id].knowledge == t[p].knowledge == Some(r)
    ensures !(exists r :: HasRoot(legacy, id, r)) ==>
              t[id].knowledge == Some(id) && forall x :: x in t && t[x].knowledge == Some(id) ==> x == id
  {
    assert Owner(legacy, id) in knowledge.Keys;
    forall p, r | legacy[id].supersedes == Some(p) && HasRoot(legacy, p, r)
      ensures t[id].knowledge == t[p].knowledge == Some(r)
    {
      var k: nat :| Descends(legacy, p, r, k);
      assert Descends(legacy, id, r, k + 1);
      OwnerIsRoot(legacy, id, r);
      OwnerIsRoot(legacy, p, r);
    }
    if !exists r :: HasRoot(legacy, id, r) {
      forall x | x in t && t[x].knowledge == Some(id)
        ensures x == id
      {
        if r :| HasRoot(legacy, x, r) {
          OwnerIsRoot(legacy, x, r);
        }
      }
    }
  }

  /** A ready, unarchived document has an active version beside it: no document of its tree has
      a greater version number and, of those with the same number, none was created later. */
  lemma ActiveIsNewest(legacy: Table, t: Table, knowledge: map<int, Knowledge>, c: int) returns (k: int, v: int)
    requires Migrated(legacy, t, knowledge) && c in t && !t[c].archived && t[c].status.Ready?
    ensures k in knowledge && knowledge[k].activeVersion == Some(v) && v in t
    ensures t[c].knowledge == t[v].knowledge == Some(k) && !t[v].archived && t[v].status.Ready?
    ensures t[c].versionNumber <= t[v].versionNumber
    ensures t[c].versionNumber == t[v].versionNumber ==> t[c].createdAt <= t[v].createdAt
    ensures t[v].title == Some(knowledge[k].title) || (t[v].title == None && knowledge[k].title == t[v].filename)
  {
    TreesShareKnowledge(legacy, t, knowledge, c);
    k := t[c].knowledge.value;
    assert KnowledgeOk(legacy, t, k, knowledge[k]) && Candidate(t[c], k);
    v := knowledge[k].activeVersion.value;
  }

  /** The lifecycle state 'active' marks exactly the active versions, at most one for each
      knowledge document, and a knowledge document without one has no ready, unarchived
      document at all. */
  lemma OneActiveVersion(legacy: Table, t: Table, knowledge: map<int, Knowledge>, k: int)
    requires Migrated(legacy, t, knowledge) && k in knowledge
    ensures forall id :: id in t && t[id].knowledge == Some(k) ==>
              (t[id].lifecycle.Active? <==> knowledge[k].activeVersion == Some(id))
    ensures forall a, b :: (a in t && b in t && t[a].knowledge == t[b].knowledge == Some(k)
                            && t[a].lifecycle.Active? && t[b].lifecycle.Active?) ==> a == b
    ensures (exists id :: id in t && t[id].knowledge == Some(k) && t[id].lifecycle.Active?)
              <==> exists id :: id in t && Candidate(t[id], k)
  {
    hide OwnersAssigned, OwnersExist, AtMostAsNew, ReadsLike;
    assert KnowledgeOk(legacy, t, k, knowledge[k]);
    forall id | id in t && t[id].knowledge == Some(k)
      ensures t[id].lifecycle.Active? <==> knowledge[k].activeVersion == Some(id)
    {
      assert StateOk(t[id]);
      if t[id].isActive {
        var m :| m in knowledge && knowledge[m].activeVersion == Some(id);
        assert KnowledgeOk(legacy, t, m, knowledge[m]);
      }
      if knowledge[k].activeVersion == Some(id) {
        assert IsActiveVersion(knowledge, id);
      }
    }
  }

  /** Nothing newer than an active version was left out: a superseded document is ready and
      unarchived, and the active version of its knowledge document is at least as new. */
  lemma SupersededByNewer(legacy: Table, t: Table, knowledge: map<int, Knowledge>, id: int) returns (v: int)
    requires Migrated(legacy, t, knowledge) && id in t && t[id].lifecycle.Superseded?
    ensures v in t && v != id && t[v].lifecycle.Active? && t[v].knowledge == t[id].knowledge
    ensures t[id].versionNumber <= t[v].versionNumber
    ensures t[id].versionNumber == t[v].versionNumber ==> t[id].createdAt <= t[v].createdAt
    ensures !t[id].archived && t[id].status.Ready?
  {
    TreesShareKnowledge(legacy, t, knowledge, id);
    var k := t[id].knowledge.value;
    OneActiveVersion(legacy, t, knowledge, k);
    assert StateOk(t[id]) && KnowledgeOk(legacy, t, k, knowledge[k]);
    assert Candidate(t[id], k);
    v := knowledge[k].activeVersion.value;
  }

  // --- Which documents reach no root -----------------------------------------------------

  /** Following k supersedes pointers from `id` leads to `x`. */
  predicate Reaches(t: Table, id: int, x: int, k: nat)
    decreases k
  {
    if k == 0 then id == x
    else id in t && t[id].supersedes.Some? && Reaches(t, t[id].supersedes.value, x, k - 1)
  }

  ghost predicate Loops(t: Table, id: int) {
    exists x, j: nat, k: nat :: k > 0 && Reaches(t, id, x, j) && Reaches(t, x, x, k)
  }

  lemma {:induction false} ReachesDescends(t: Table, id: int, x: int, j: nat, root: int, m: nat)
    requires Reaches(t, id, x, j) && Descends(t, id, root, m)
    ensures j <= m && Descends(t, x, root, m - j)
    decreases j
  {
    if j > 0 {
      ReachesDescends(t, t[id].supersedes.value, x, j - 1, root, m - 1);
    }
  }

  /** The pointers followed from path[0], as far as they have not repeated. */
  ghost predicate Path(t: Table, path: seq<int>) {
    && path != [] && (forall i :: 0 <= i < |path| ==> path[i] in t)
    && (forall i, j :: 0 <= i < j < |path| ==> path[i] != path[j])
    && forall i :: 0 <= i < |path| - 1 ==> t[path[i]].supersedes == Some(path[i + 1])
  }

  lemma {:induction false} PathReaches(t: Table, path: seq<int>, i: nat, j: nat)
    requires Path(t, path) && i <= j < |path|
    ensures Reaches(t, path[i], path[j], j - i)
    decreases j - i
  {
    if i < j {
      PathReaches(t, path, i + 1, j);
    }
  }

  lemma {:induction false} ReachesThenDescends(t: Table, id: int, x: int, j: nat, root: int, m: nat)
    requires Reaches(t, id, x, j) && Descends(t, x, root, m)
    ensures Descends(t, id, root, j + m)
    decreases j
  {
    if j > 0 {
      ReachesThenDescends(t, t[id].supersedes.value, x, j - 1, root, m);
    }
  }

  lemma {:induction false} ReachesOn(t: Table, id: int, x: int, j: nat)
    requires Reaches(t, id, x, j) && x in t && t[x].supersedes.Some?
    ensures Reaches(t, id, t[x].supersedes.value, j + 1)
    decreases j
  {
    if j > 0 {
      ReachesOn(t, t[id].supersedes.value, x, j - 1);
    }
  }

  lemma {:induction false} Wander(t: Table, path: seq<int>)
    requires Path(t, path) && !exists r :: HasRoot(t, path[0], r)
    requires forall d :: d in t && t[d].supersedes.Some? ==> t[d].supersedes.value in t
    ensures Loops(t, path[0])
    decreases t.Keys - set x | x in path
  {
    var last := path[|path| - 1];
    PathReaches(t, path, 0, |path| - 1);
    if t[last].supersedes.None? {
      assert Descends(t, last, last, 0);
      ReachesThenDescends(t, path[0], last, |path| - 1, last, 0);
      assert HasRoot(t, path[0], last);
    } else {
      var next := t[last].supersedes.value;
      if next in path {
        var i :| 0 <= i < |path| && path[i] == next;
        PathReaches(t, path, 0, i);
        PathReaches(t, path, i, |path| - 1);
        ReachesOn(t, next, last, |path| - 1 - i);
        assert Reaches(t, path[0], next, i) && Reaches(t, next, next, |path| - i);
      } else {
        assert next in t.Keys - (set x | x in path) && next in path + [next];
        assert t.Keys - (set x | x in path + [next]) < t.Keys - set x | x in path;
        Wander(t, path + [next]);
      }
    }
  }

  /** Where every supersedes pointer resolves, a document founds its own knowledge document
      without being a root exactly when its pointers run into a cycle. */
  lemma RootlessIffLoops(t: Table, id: int)
    requires id in t && forall d :: d in t && t[d].supersedes.Some? ==> t[d].supersedes.value in t
    ensures (exists r :: HasRoot(t, id, r)) <==> !Loops(t, id)
  {
    if Loops(t, id) {
      var x, j: nat, k: nat :| k > 0 && Reaches(t, id, x, j) && Reaches(t, x, x, k);
      forall r, m: nat
        ensures !Descends(t, id, r, m)
      {
        if Descends(t, id, r, m) {
          ReachesDescends(t, id, x, j, r, m);
          ReachesDescends(t, x, x, k, r, m - j);
          RootUnique(t, x, r, m - j, r, m - j - k);
        }
      }
    } else if !exists r :: HasRoot(t, id, r) {
      Wander(t, [id]);
    }
  }

  /** Whoever follows the supersedes pointers to a document that supersedes nothing finds the
      knowledge document there; if a pointer leads nowhere, the document stands alone. */
  lemma ChainsShareKnowledge(legacy: Table, t: Table, knowledge: map<int, Knowledge>, path: seq<int>)
    requires Migrated(legacy, t, knowledge) && Path(legacy, path)
    ensures var last := legacy[path[|path| - 1]].supersedes;
            if last.None? then t[path[0]].knowledge == Some(path[|path| - 1])
            else last.value !in legacy ==> t[path[0]].knowledge == Some(path[0])
  {
    hide KnowledgeOk, OwnersExist, StateOk, Owners;
    var end := path[|path| - 1];
    PathReaches(legacy, path, 0, |path| - 1);
    if legacy[end].supersedes.None? {
      assert Descends(legacy, end, end, 0);
      ReachesThenDescends(legacy, path[0], end, |path| - 1, end, 0);
      OwnerIsRoot(legacy, path[0], end);
    } else if legacy[end].supersedes.value !in legacy {
      if r :| HasRoot(legacy, path[0], r) {
        var m: nat :| Descends(legacy, path[0], r, m);
        ReachesDescends(legacy, path[0], end, |path| - 1, r, m);
      }
    }
  }
}
