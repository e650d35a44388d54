/** The disclosure store: version chains, and what of them was available at a given time. */
module Disclosures {
  import opened Wrappers
  import Sorting
  import Chunker

  datatype Group = Group(source: string, document: string)

  /** Identities of versioned disclosures are derived from what they identify. */
  datatype Id = Given(name: string) | Official(group: Group, version: int, hash: string)

  datatype Status = Current | Superseded | Other(name: string)

  datatype Document = Document(
    id: Id, source: string, sourceDocument: string, asset: Option<string>, title: string, body: string,
    published: int, retrieved: int, firstObserved: Option<int>, ingested: Option<int>, available: Option<int>,
    version: int, supersedes: Option<Id>, reliability: real, hash: string, policy: Option<string>,
    documentKey: Option<string>, logicalKey: Option<string>, status: Status)

  /** Python's `text or default`: an empty string counts as missing. */
  function OrElse(text: Option<string>, default: string): string {
    if text.Some? && text.value != "" then text.value else default
  }

  function GroupOf(d: Document): Group {
    Group(OrElse(d.logicalKey, d.policy.GetOr(d.source)), OrElse(d.documentKey, d.sourceDocument))
  }

  datatype Key = Key(source: string, document: string, version: int)

  datatype Entry = Entry(key: Key, doc: Document, chunks: seq<string>)

  function Larger(x: int, y: int): int { if x >= y then x else y }

  function ObservedAt(d: Document): int { d.firstObserved.GetOr(d.retrieved) }
  function IngestedAt(d: Document): int { d.ingested.GetOr(d.retrieved) }

  // ---------------------------------------------------------------- the dictionary of documents

  /** The place of a key in the dictionary, which keeps its entries in order of insertion. */
  function Find(entries: seq<Entry>, key: Key): (r: Option<nat>)
    ensures r.Some? ==> r.value < |entries| && entries[r.value].key == key
    ensures r.None? ==> forall e :: e in entries ==> e.key != key
  {
    if entries == [] then None
    else if entries[|entries| - 1].key == key then Some(|entries| - 1)
    else
      assert entries == entries[..|entries| - 1] + [entries[|entries| - 1]];
      Find(entries[..|entries| - 1], key)
  }

  function Put(entries: seq<Entry>, e: Entry): seq<Entry> {
    var at := Find(entries, e.key);
    if at.Some? then entries[at.value := e] else entries + [e]
  }

  // ---------------------------------------------------------------- persisting

  /** The ingestion service stamps a document before it is stored under the version it carries. */
  function Stamped(d: Document): Document {
    d.(firstObserved := Some(ObservedAt(d)), ingested := Some(IngestedAt(d)),
       available := Some(Larger(ObservedAt(d), IngestedAt(d))))
  }

  function PlainKey(d: Document): Key { Key(d.source, d.sourceDocument, d.version) }

  /** The versions of a document, oldest entry first. */
  function Of(entries: seq<Entry>, g: Group): seq<Entry> {
    if entries == [] then []
    else
      var e := entries[|entries| - 1];
      Of(entries[..|entries| - 1], g) + (if GroupOf(e.doc) == g then [e] else [])
  }

  /** Python's `max(…, key=version)`: the first entry with the highest version. */
  function Best(entries: seq<Entry>): Option<Entry> {
    if entries == [] then None
    else
      var best, e := Best(entries[..|entries| - 1]), entries[|entries| - 1];
      if best.Some? && e.doc.version <= best.value.doc.version then best else Some(e)
  }

  /** A disclosure as it arrives: kept timestamps or live ones, and the clock's reading. */
  datatype Arrival = Arrival(doc: Document, keep: bool, now: int)

  function Prepared(a: Arrival, version: int, supersedes: Option<Id>): Document {
    var g, ingested := GroupOf(a.doc), if a.keep then IngestedAt(a.doc) else a.now;
    a.doc.(id := Official(g, version, a.doc.hash), logicalKey := Some(g.source), documentKey := Some(g.document),
           version := version, supersedes := supersedes,
           firstObserved := Some(ObservedAt(a.doc)), ingested := Some(ingested),
           available := Some(Larger(ObservedAt(a.doc), ingested)))
  }

  function Retired(e: Entry, id: Id): Entry {
    if e.doc.id == id then e.(doc := e.doc.(status := Superseded)) else e
  }

  function RetireAll(entries: seq<Entry>, id: Id): (r: seq<Entry>)
    ensures |r| == |entries| && forall i :: 0 <= i < |r| ==> r[i] == Retired(entries[i], id)
  {
    seq(|entries|, i requires 0 <= i < |entries| => Retired(entries[i], id))
  }

  /** Stores the arrival as the next version of its document, unless nothing changed. */
  function Persist(entries: seq<Entry>, a: Arrival, limit: int): (seq<Entry>, Option<Document>) {
    var g := GroupOf(a.doc);
    var latest := Best(Of(entries, g));
    if latest.Some? && latest.value.doc.hash == a.doc.hash then (entries, None)
    else
      var version := if latest.Some? then latest.value.doc.version + 1 else 1;
      var prepared := Prepared(a, version, if latest.Some? then Some(latest.value.doc.id) else None);
      var retired := if latest.Some? then RetireAll(entries, latest.value.doc.id) else entries;
      (Put(retired, Entry(Key(g.source, g.document, version), prepared, Chunker.Chunks(prepared.body, limit))),
       Some(prepared))
  }

  // ---------------------------------------------------------------- candidates

  /** `idName` is the text of the identity of a chunk, which breaks ties between candidates. */
  datatype Query = Query(asset: string, at: int, lookback: int, future: int, idName: (Id, nat) -> string)

  datatype Candidate = Candidate(
    id: Id, index: nat, source: string, sourceDocument: string, title: string, text: string, published: int,
    firstObserved: int, ingested: int, available: int, version: int, reliability: real, policy: Option<string>)

  /** When the selection takes a document to be available. */
  function SelectedAt(d: Document): int { d.available.GetOr(d.retrieved) }

  /** When the candidate says it was. */
  function AvailableAt(d: Document): int { d.available.GetOr(Larger(ObservedAt(d), IngestedAt(d))) }

  function Eligible(entries: seq<Entry>, at: int): seq<Entry> {
    if entries == [] then []
    else
      var e := entries[|entries| - 1];
      Eligible(entries[..|entries| - 1], at) + (if SelectedAt(e.doc) <= at then [e] else [])
  }

  function Afterwards(entries: seq<Entry>, at: int): seq<Entry> {
    if entries == [] then []
    else
      var e := entries[|entries| - 1];
      Afterwards(entries[..|entries| - 1], at) + (if SelectedAt(e.doc) > at then [e] else [])
  }

  /** Of one document: its highest version available at the time, and every version that came later. */
  function SelectFrom(versions: seq<Entry>, at: int): seq<Entry> {
    var best := Best(Eligible(versions, at));
    (if best.Some? then [best.value] else []) + Afterwards(versions, at)
  }

  /** The documents in the order they were first stored. */
  function GroupsOf(entries: seq<Entry>): seq<Group> {
    if entries == [] then []
    else
      var before, g := GroupsOf(entries[..|entries| - 1]), GroupOf(entries[|entries| - 1].doc);
      if g in before then before else before + [g]
  }

  function SelectEach(entries: seq<Entry>, groups: seq<Group>, at: int): seq<Entry> {
    if groups == [] then []
    else SelectEach(entries, groups[..|groups| - 1], at) + SelectFrom(Of(entries, groups[|groups| - 1]), at)
  }

  function Selected(entries: seq<Entry>, at: int): seq<Entry> {
    SelectEach(entries, GroupsOf(entries), at)
  }

  predicate Relevant(d: Document, q: Query) {
    (d.asset == None || d.asset == Some(q.asset)) && q.at - q.lookback <= d.published <= q.at + q.future
  }

  function CandidateOf(e: Entry, index: nat): Candidate
    requires index < |e.chunks|
  {
    Candidate(e.doc.id, index, e.doc.source, e.doc.sourceDocument, e.doc.title, e.chunks[index], e.doc.published,
              ObservedAt(e.doc), IngestedAt(e.doc), AvailableAt(e.doc), e.doc.version, e.doc.reliability, e.doc.policy)
  }

  function CandidatesFrom(e: Entry): (r: seq<Candidate>)
    ensures |r| == |e.chunks| && forall i :: 0 <= i < |r| ==> r[i] == CandidateOf(e, i)
  {
    seq(|e.chunks|, i requires 0 <= i < |e.chunks| => CandidateOf(e, i))
  }

  function Gather(selected: seq<Entry>, q: Query): seq<Candidate> {
    if selected == [] then []
    else
      var e := selected[|selected| - 1];
      Gather(selected[..|selected| - 1], q) + (if Relevant(e.doc, q) then CandidatesFrom(e) else [])
  }

  function Earlier(q: Query): (Candidate, Candidate) -> bool {
    (x: Candidate, y: Candidate) =>
      x.published < y.published
      || (x.published == y.published && Sorting.StringLe(q.idName(x.id, x.index), q.idName(y.id, y.index)))
  }

  function Candidates(entries: seq<Entry>, q: Query): seq<Candidate> {
    Sorting.Sort(Gather(Selected(entries, q.at), q), Earlier(q))
  }

  // ---------------------------------------------------------------- the store itself

  class InMemoryVerificationRepository {
    var documents: seq<Entry>

    constructor ()
      ensures documents == []
    {
      documents := [];
    }

    /** Stores a document under the version it carries, unless that is taken. */
    method PersistDisclosure(doc: Document, chunks: seq<string>) returns (stored: bool)
      modifies this
      ensures stored <==> forall e :: e in old(documents) ==> e.key != PlainKey(doc)
      ensures documents == if stored then old(documents) + [Entry(PlainKey(doc), doc, chunks)] else old(documents)
    {
      if Find(documents, PlainKey(doc)).Some? {
        return false;
      }
      documents := Put(documents, Entry(PlainKey(doc), doc, chunks));
      return true;
    }

    /** Rewrites the entries that hold the identified disclosure, one by one. */
    method Retire(id: Id)
      modifies this
      ensures documents == RetireAll(old(documents), id)
    {
      for i := 0 to |documents|
        invariant |documents| == |old(documents)|
        invariant forall k :: 0 <= k < i ==> documents[k] == Retired(old(documents)[k], id)
        invariant forall k :: i <= k < |documents| ==> documents[k] == old(documents)[k]
      {
        var e := documents[i];
        if e.doc.id == id {
          documents := documents[i := e.(doc := e.doc.(status := Superseded))];
        }
      }
    }

    method PersistVersioned(a: Arrival, limit: int) returns (r: Option<Document>)
      modifies this
      ensures documents == Persist(old(documents), a, limit).0
      ensures r == Persist(old(documents), a, limit).1
    {
      var g := GroupOf(a.doc);
      var latest := Best(Of(documents, g));
      if latest.Some? && latest.value.doc.hash == a.doc.hash {
        return None;
      }
      var version := if latest.Some? then latest.value.doc.version + 1 else 1;
      var prepared := Prepared(a, version, if latest.Some? then Some(latest.value.doc.id) else None);
      if latest.Some? {
        Retire(latest.value.doc.id);
      }
      var chunks := Chunker.CutIntoChunks(prepared.body, limit);
      documents := Put(documents, Entry(Key(g.source, g.document, version), prepared, chunks));
      return Some(prepared);
    }

    /** Files every document under its group. */
    method GroupUp() returns (grouped: map<Group, seq<Entry>>, order: seq<Group>)
      ensures order == GroupsOf(documents) && Filed(grouped, order, documents)
    {
      hide Of, GroupsOf, FiledIn;
      grouped, order := map[], [];
      NothingFiled();
      for i := 0 to |documents|
        invariant order == GroupsOf(documents[..i]) && Filed(grouped, order, documents[..i])
      {
        var e := documents[i];
        var g := GroupOf(e.doc);
        OneMoreFiled(grouped, order, documents[..i], e);
        assert documents[..i + 1] == documents[..i] + [e];
        if g !in grouped {
          order := order + [g];
        }
        grouped := FiledIn(grouped, e);
      }
      assert documents[..|documents|] == documents;
    }

    /** Takes from each group its best version available at the time and the later ones. */
    method Select(at: int) returns (selected: seq<Entry>)
      ensures selected == Selected(documents, at)
    {
      hide Of, GroupsOf, Eligible, Afterwards, Best;
      var grouped, order := GroupUp();
      selected := [];
      for i := 0 to |order|
        invariant selected == SelectEach(documents, order[..i], at)
      {
        assert order[..i + 1][..i] == order[..i] && order[i] in order;
        var versions := grouped[order[i]];
        var best := Best(Eligible(versions, at));
        var chosen := if best.Some? then [best.value] else [];
        selected := selected + (chosen + Afterwards(versions, at));
      }
      assert order[..|order|] == order;
    }

    /** Lists the chunks of the relevant documents selected, by publication. */
    method FindCandidates(q: Query) returns (results: seq<Candidate>)
      ensures results == Candidates(documents, q)
    {
      var selected := Select(q.at);
      results := [];
      for i := 0 to |selected|
        invariant results == Gather(selected[..i], q)
      {
        assert selected[..i + 1][..i] == selected[..i];
        var e := selected[i];
        if Relevant(e.doc, q) {
          results := results + CandidatesFrom(e);
        }
      }
      assert selected[..|selected|] == selected;
      results := Sorting.Sort(results, Earlier(q));
    }
  }

  /** Python's `grouped[key].append(entry)` on a dictionary that starts every key with an empty list. */
  function FiledIn(grouped: map<Group, seq<Entry>>, e: Entry): map<Group, seq<Entry>> {
    var g := GroupOf(e.doc);
    grouped[g := (if g in grouped then grouped[g] else []) + [e]]
  }

  /** The groups hold their documents in order of insertion, and there are no others. */
  ghost predicate Filed(grouped: map<Group, seq<Entry>>, order: seq<Group>, entries: seq<Entry>) {
    && (forall g :: g in grouped <==> g in order)
    && (forall g :: Of(entries, g) == if g in grouped then grouped[g] else [])
  }

  lemma OneMoreEntry(entries: seq<Entry>, e: Entry)
    ensures forall g :: Of(entries + [e], g) == if GroupOf(e.doc) == g then Of(entries, g) + [e] else Of(entries, g)
    ensures var g := GroupOf(e.doc);
            GroupsOf(entries + [e]) == if g in GroupsOf(entries) then GroupsOf(entries) else GroupsOf(entries) + [g]
  {
    assert (entries + [e])[..|entries|] == entries;
  }

  lemma NothingFiled()
    ensures Filed(map[], [], []) && GroupsOf([]) == []
  {
  }

  lemma OneMoreFiled(grouped: map<Group, seq<Entry>>, order: seq<Group>, entries: seq<Entry>, e: Entry)
    requires Filed(grouped, order, entries) && order == GroupsOf(entries)
    ensures var g := GroupOf(e.doc);
            var more := if g in grouped then order else order + [g];
            Filed(FiledIn(grouped, e), more, entries + [e]) && more == GroupsOf(entries + [e])
  {
    OneMoreEntry(entries, e);
  }
}
