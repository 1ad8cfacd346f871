/** The agent's journal memory (src/memory/mod.rs): a chronological journal capped at 100
    entries, the agent's identity and known topology, and the context text given to the model. */
module Memory {
  import opened Wrappers
  import Text

  const MAX_JOURNAL_ENTRIES: nat := 100
  /** How many of the most recent entries the context shows. */
  const RECENT_ENTRIES: nat := 10

  /** `MemoryEntry`: one journal record. */
  datatype MemoryEntry =
    | SystemInfo(info: string)
    | UserInteraction(query: string, response: string)
    | ToolResult(tool: string, result: string)
    | Observation(note: string)
    | Error(message: string)

  /** The entry's `Display` form. */
  function Render(e: MemoryEntry): string
  {
    match e
    case SystemInfo(s) => "[system] " + s
    case UserInteraction(q, r) => "[user] " + q + " -> [response] " + r
    case ToolResult(t, r) => "[tool: " + t + "] " + r
    case Observation(s) => "[observation] " + s
    case Error(s) => "[error] " + s
  }

  /** Which variant a rendered line opens with. */
  datatype EntryKind = SystemKind | UserKind | ToolKind | ObservationKind | ErrorKind

  function KindOf(e: MemoryEntry): EntryKind
  {
    match e
    case SystemInfo(_) => SystemKind
    case UserInteraction(_, _) => UserKind
    case ToolResult(_, _) => ToolKind
    case Observation(_) => ObservationKind
    case Error(_) => ErrorKind
  }

  /** Reads the variant back from the leading tag of a rendered line. */
  function KindFromLine(line: string): Option<EntryKind>
  {
    if "[system] " <= line then Some(SystemKind)
    else if "[user] " <= line then Some(UserKind)
    else if "[tool: " <= line then Some(ToolKind)
    else if "[observation] " <= line then Some(ObservationKind)
    else if "[error] " <= line then Some(ErrorKind)
    else None
  }

  /** The five tags are distinct: every rendered entry shows which variant it is. */
  lemma RenderShowsKind(e: MemoryEntry)
    ensures KindFromLine(Render(e)) == Some(KindOf(e))
  {
    var line := Render(e);
    match e {
      case SystemInfo(s) => assert "[system] " <= line;
      case UserInteraction(q, r) =>
        assert "[user] " <= line;
        assert line[1] == 'u';
      case ToolResult(t, r) =>
        assert "[tool: " <= line;
        assert line[1] == 't';
      case Observation(s) =>
        assert "[observation] " <= line;
        assert line[1] == 'o';
      case Error(s) =>
        assert "[error] " <= line;
        assert line[1] == 'e';
    }
  }

  /** The last `min(n, |s|)` elements of `s`. */
  function KeepLast<T>(s: seq<T>, n: nat): (r: seq<T>)
    ensures |r| == if |s| <= n then |s| else n
    ensures r == s[|s| - |r|..]
  {
    if |s| <= n then s else s[|s| - n..]
  }

  /** `push_back` then `pop_front` while over the cap: the shared body of both journals' `add`. */
  method PushBounded<T>(journal: seq<T>, e: T, cap: nat) returns (r: seq<T>)
    ensures r == KeepLast(journal + [e], cap)
  {
    r := journal + [e];
    ghost var full := r;
    while |r| > cap
      invariant r == full[|full| - |r|..]
      invariant |r| >= (if |full| <= cap then |full| else cap)
      decreases |r|
    {
      r := r[1..];
    }
  }

  /** Appending one entry to a capped journal keeps it within the cap, puts the entry last, and
      drops only from the front, and only when the journal was already full. */
  lemma {:induction false} KeepLastAppend<T>(journal: seq<T>, e: T, cap: nat)
    requires |journal| <= cap && cap > 0
    ensures var r := KeepLast(journal + [e], cap);
            |r| <= cap && r[|r| - 1] == e && r[..|r| - 1] == journal[|journal| + 1 - |r|..]
    ensures |journal| < cap ==> KeepLast(journal + [e], cap) == journal + [e]
    ensures |journal| == cap ==> KeepLast(journal + [e], cap) == journal[1..] + [e]
  {
    var full := journal + [e];
    var r := KeepLast(full, cap);
    assert r[..|r| - 1] == full[|full| - |r|..|full| - 1];
    assert full[..|full| - 1] == journal;
  }

  /** Capping after each append is the same as capping once after all of them: the journal after
      a run of `add`s is the last 100 of everything ever added. */
  lemma KeepLastTwice<T>(s: seq<T>, t: seq<T>, n: nat)
    ensures KeepLast(KeepLast(s, n) + t, n) == KeepLast(s + t, n)
  {
    var u := KeepLast(s, n);
    var w := s + t;
    assert u + t == w[|s| - |u|..];
    var a := KeepLast(u + t, n);
    var b := KeepLast(w, n);
    assert |a| == |b|;
    assert a == (u + t)[|u + t| - |a|..];
  }

  /** `self.journal.iter().rev().take(n).rev()`, written with an explicit reversal. */
  function Reverse<T>(s: seq<T>): (r: seq<T>)
    ensures |r| == |s|
    ensures forall i :: 0 <= i < |s| ==> r[i] == s[|s| - 1 - i]
  {
    if s == [] then [] else Reverse(s[1..]) + [s[0]]
  }

  function Take<T>(s: seq<T>, n: nat): (r: seq<T>)
    ensures |r| == if |s| <= n then |s| else n
    ensures r <= s
  {
    if |s| <= n then s else s[..n]
  }

  function RecentEntries(journal: seq<MemoryEntry>): seq<MemoryEntry>
  {
    Reverse(Take(Reverse(journal), RECENT_ENTRIES))
  }

  /** The context's history shows the last `min(10, n)` entries, oldest first. */
  lemma RecentIsLastTen(journal: seq<MemoryEntry>)
    ensures RecentEntries(journal) == KeepLast(journal, RECENT_ENTRIES)
  {
    var r := RecentEntries(journal);
    var k := KeepLast(journal, RECENT_ENTRIES);
    var t := Take(Reverse(journal), RECENT_ENTRIES);
    forall i | 0 <= i < |r|
      ensures r[i] == k[i]
    {
      assert r[i] == t[|t| - 1 - i];
      assert t[|t| - 1 - i] == Reverse(journal)[|t| - 1 - i];
    }
  }

  /** One `"- " + Display` line per recent entry. */
  function HistoryLines(entries: seq<MemoryEntry>): (lines: seq<string>)
    ensures |lines| == |entries|
    ensures forall i :: 0 <= i < |entries| ==> lines[i] == "- " + Render(entries[i])
  {
    if entries == [] then [] else ["- " + Render(entries[0])] + HistoryLines(entries[1..])
  }

  function IdentitySection(identity: string): string
  {
    "## Identity\n" + identity
  }

  function TopologySection(topology: seq<string>): string
  {
    "## Known Topology\n" + Text.Join(topology, "\n")
  }

  function HistorySection(journal: seq<MemoryEntry>): string
  {
    "## Recent History\n" + Text.Join(HistoryLines(RecentEntries(journal)), "\n")
  }

  /** The sections of `context`, in order: identity (always here; storage.rs omits it when the
      identity is empty), topology when known, history when the journal has entries. */
  function ContextParts(identity: seq<string>, topology: seq<string>, journal: seq<MemoryEntry>): seq<string>
  {
    identity + (if topology != [] then [TopologySection(topology)] else [])
      + (if journal != [] then [HistorySection(journal)] else [])
  }

  /** The three section titles differ at their fourth character, so each section can be told
      apart by its head. */
  function SectionTag(part: string): char
  {
    if |part| > 3 then part[3] else ' '
  }

  /** The parts list holds the identity parts, then a topology section exactly when topology is
      known, then a history section exactly when the journal is non-empty, and nothing else. */
  const SECTION_SEP: string := "\n\n"

  /** A context that opens with `head`: then the topology section when there is topology and the
      history section when there is a journal, each after a blank line. */
  function LaidOut(head: string, topology: seq<string>, journal: seq<MemoryEntry>): string
  {
    if topology != [] && journal != [] then
      head + SECTION_SEP + TopologySection(topology) + SECTION_SEP + HistorySection(journal)
    else if topology != [] then head + SECTION_SEP + TopologySection(topology)
    else if journal != [] then head + SECTION_SEP + HistorySection(journal)
    else head
  }

  /** Joining the sections by blank lines lays them out as `LaidOut` says. */
  lemma JoinedSections(head: string, topology: seq<string>, journal: seq<MemoryEntry>)
    ensures Text.Join(ContextParts([head], topology, journal), SECTION_SEP) == LaidOut(head, topology, journal)
  {
    var parts := ContextParts([head], topology, journal);
    if topology != [] && journal != [] {
      var t, h := TopologySection(topology), HistorySection(journal);
      assert parts == [head, t, h];
      Text.JoinThree(head, t, h, SECTION_SEP);
    } else if topology != [] {
      var t := TopologySection(topology);
      assert parts == [head, t];
      Text.JoinTwo(head, t, SECTION_SEP);
    } else if journal != [] {
      var h := HistorySection(journal);
      assert parts == [head, h];
      Text.JoinTwo(head, h, SECTION_SEP);
    } else {
      assert parts == [head];
    }
  }

  lemma ContextPartsLayout(identity: seq<string>, topology: seq<string>, journal: seq<MemoryEntry>)
    requires forall i :: 0 <= i < |identity| ==> SectionTag(identity[i]) == 'I'
    ensures var parts := ContextParts(identity, topology, journal);
            parts[..|identity|] == identity &&
            |parts| == |identity| + (if topology != [] then 1 else 0) + (if journal != [] then 1 else 0) &&
            ((exists i :: 0 <= i < |parts| && SectionTag(parts[i]) == 'K') <==> topology != []) &&
            ((exists i :: 0 <= i < |parts| && SectionTag(parts[i]) == 'R') <==> journal != []) &&
            (topology != [] ==> parts[|identity|] == TopologySection(topology)) &&
            (journal != [] ==> parts[|parts| - 1] == HistorySection(journal))
  {
    var parts := ContextParts(identity, topology, journal);
    assert SectionTag(TopologySection(topology)) == 'K';
    assert SectionTag(HistorySection(journal)) == 'R';
    if topology != [] {
      assert SectionTag(parts[|identity|]) == 'K';
    }
    if journal != [] {
      assert SectionTag(parts[|parts| - 1]) == 'R';
    }
  }

  class Memory {
    /** Chronological record, oldest first. */
    var journal: seq<MemoryEntry>
    /** Static information about the agent. */
    var identity: string
    /** Known system structure. */
    var topology: seq<string>

    ghost predicate Valid()
      reads this
    {
      |journal| <= MAX_JOURNAL_ENTRIES
    }

    /** `Memory::new`: the identity, an empty journal and no topology. */
    constructor (identity: string)
      ensures Valid() && journal == [] && topology == [] && this.identity == identity
    {
      journal := [];
      this.identity := identity;
      topology := [];
    }

    /** `add`: append, then drop the oldest entries while over 100. */
    method Add(e: MemoryEntry)
      modifies this
      ensures journal == KeepLast(old(journal) + [e], MAX_JOURNAL_ENTRIES) && Valid()
      ensures identity == old(identity) && topology == old(topology)
    {
      journal := PushBounded(journal, e, MAX_JOURNAL_ENTRIES);
    }

    method AddSystemInfo(info: string)
      modifies this
      ensures journal == KeepLast(old(journal) + [SystemInfo(info)], MAX_JOURNAL_ENTRIES) && Valid()
      ensures identity == old(identity) && topology == old(topology)
    {
      Add(SystemInfo(info));
    }

    method AddInteraction(query: string, response: string)
      modifies this
      ensures journal == KeepLast(old(journal) + [UserInteraction(query, response)], MAX_JOURNAL_ENTRIES) && Valid()
      ensures identity == old(identity) && topology == old(topology)
    {
      Add(UserInteraction(query, response));
    }

    method AddToolResult(tool: string, result: string)
      modifies this
      ensures journal == KeepLast(old(journal) + [ToolResult(tool, result)], MAX_JOURNAL_ENTRIES) && Valid()
      ensures identity == old(identity) && topology == old(topology)
    {
      Add(ToolResult(tool, result));
    }

    method AddObservation(note: string)
      modifies this
      ensures journal == KeepLast(old(journal) + [Observation(note)], MAX_JOURNAL_ENTRIES) && Valid()
      ensures identity == old(identity) && topology == old(topology)
    {
      Add(Observation(note));
    }

    method AddError(message: string)
      modifies this
      ensures journal == KeepLast(old(journal) + [Error(message)], MAX_JOURNAL_ENTRIES) && Valid()
      ensures identity == old(identity) && topology == old(topology)
    {
      Add(Error(message));
    }

    /** `add_topology`: a topology line at the end; the journal is left alone. */
    method AddTopology(info: string)
      modifies this
      ensures topology == old(topology) + [info]
      ensures journal == old(journal) && identity == old(identity)
    {
      topology := topology + [info];
    }

    /** `context`: identity first, then topology and recent history when there are any, joined by
        a blank line. */
    function Context(): (r: string)
      reads this
      ensures IdentitySection(identity) <= r
      ensures r == LaidOut(IdentitySection(identity), topology, journal)
    {
      JoinedSections(IdentitySection(identity), topology, journal);
      Text.JoinStartsWithFirst(ContextParts([IdentitySection(identity)], topology, journal), "\n\n");
      Text.Join(ContextParts([IdentitySection(identity)], topology, journal), "\n\n")
    }
  }
}
