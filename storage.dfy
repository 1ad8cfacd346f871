/** The storage-backed memory (src/memory/storage.rs): the same capped journal and context as
    `Memory`, an identity that may be empty, and semantic entries that are recalled by rank and
    rendered with their timestamps. */
module MemoryStorage {
  import opened Wrappers
  import Text
  import Journal = Memory

  /** A UTC date and time, as far as `%Y-%m-%d %H:%M:%S` shows it. */
  datatype Timestamp = Timestamp(year: nat, month: nat, day: nat, hour: nat, minute: nat, second: nat)

  predicate ValidTimestamp(t: Timestamp)
  {
    t.year < 10000 && 1 <= t.month <= 12 && 1 <= t.day <= 31 && t.hour < 24 && t.minute < 60 && t.second < 61
  }

  /** A semantic `MemoryEntry`: its text, when it was stored and its identifier (the embedding
      vector is floating point and not part of this model). */
  datatype SemanticEntry = SemanticEntry(content: string, timestamp: Timestamp, id: string)

  /** `MemoryConfig` and its defaults (the default directory depends on the home directory). */
  datatype MemoryConfig = MemoryConfig(storageDir: string, topK: nat, maxCognitionRounds: nat, embeddingModel: string)

  function DefaultConfig(storageDir: string): (c: MemoryConfig)
    ensures c.topK == 5 && c.maxCognitionRounds == 3 && c.embeddingModel == "default"
  {
    MemoryConfig(storageDir, 5, 3, "default")
  }

  predicate AllDigits(s: string)
  {
    forall i :: 0 <= i < |s| ==> Text.IsDigit(s[i])
  }

  /** `k` zero characters. */
  function Zeros(k: nat): (z: string)
    ensures |z| == k && AllDigits(z)
  {
    if k == 0 then "" else "0" + Zeros(k - 1)
  }

  /** `n` in decimal, left-padded with zeros to `width` characters. */
  function ZeroPad(n: nat, width: nat): (s: string)
    ensures AllDigits(s)
    ensures |Text.NatToString(n)| <= width ==> |s| == width
    ensures Text.DigitsValue(s) == n
  {
    var digits := Text.NatToString(n);
    Text.NatToStringValue(n);
    if |digits| >= width then digits
    else
      LeadingZeros(width - |digits|, digits);
      Zeros(width - |digits|) + digits
  }

  /** Leading zeros do not change the value of a digit string. */
  lemma {:induction false} LeadingZeros(k: nat, s: string)
    requires AllDigits(s)
    ensures AllDigits(Zeros(k) + s)
    ensures Text.DigitsValue(Zeros(k) + s) == Text.DigitsValue(s)
    decreases |s|
  {
    var t := Zeros(k) + s;
    assert AllDigits(t) by {
      forall i | 0 <= i < |t| ensures Text.IsDigit(t[i]) {
        if i < k { assert t[i] == Zeros(k)[i]; } else { assert t[i] == s[i - k]; }
      }
    }
    if s == [] {
      assert t == Zeros(k);
      AllZeros(k);
    } else {
      assert t[..|t| - 1] == Zeros(k) + s[..|s| - 1];
      LeadingZeros(k, s[..|s| - 1]);
    }
  }

  lemma {:induction false} AllZeros(k: nat)
    ensures Text.DigitsValue(Zeros(k)) == 0
  {
    if k > 0 {
      var z := Zeros(k);
      assert z[|z| - 1] == '0' by { ZerosAreZero(k, k - 1); }
      assert z[..k - 1] == Zeros(k - 1) by { ZerosPrefix(k); }
      AllZeros(k - 1);
    }
  }

  lemma {:induction false} ZerosAreZero(k: nat, i: nat)
    requires i < k
    ensures Zeros(k)[i] == '0'
  {
    if i > 0 { ZerosAreZero(k - 1, i - 1); }
  }

  lemma {:induction false} ZerosPrefix(k: nat)
    requires k > 0
    ensures Zeros(k)[..k - 1] == Zeros(k - 1)
  {
    if k > 1 {
      ZerosPrefix(k - 1);
      assert Zeros(k)[..k - 1] == "0" + Zeros(k - 1)[..k - 2];
    }
  }

  function Pow10(k: nat): nat
  {
    if k == 0 then 1 else 10 * Pow10(k - 1)
  }

  /** A number below `10^width` has at most `width` decimal digits. */
  lemma {:induction false} DigitCount(n: nat, width: nat)
    requires width >= 1 && n < Pow10(width)
    ensures |Text.NatToString(n)| <= width
  {
    if n >= 10 {
      assert width >= 2;
      assert n / 10 < Pow10(width - 1);
      DigitCount(n / 10, width - 1);
    }
  }

  function Date(t: Timestamp): string
  {
    ZeroPad(t.year, 4) + "-" + ZeroPad(t.month, 2) + "-" + ZeroPad(t.day, 2)
  }

  function Time(t: Timestamp): string
  {
    ZeroPad(t.hour, 2) + ":" + ZeroPad(t.minute, 2) + ":" + ZeroPad(t.second, 2)
  }

  /** `timestamp.format("%Y-%m-%d %H:%M:%S")`. */
  function FormatTimestamp(t: Timestamp): string
  {
    Date(t) + " " + Time(t)
  }

  /** Where the six padded fields sit in `YYYY-MM-DD HH:MM:SS`. */
  lemma Layout(y: string, mo: string, d: string, h: string, mi: string, se: string)
    requires |y| == 4 && |mo| == 2 && |d| == 2 && |h| == 2 && |mi| == 2 && |se| == 2
    ensures var s := (y + "-" + mo + "-" + d) + " " + (h + ":" + mi + ":" + se);
            |s| == 19 && s[4] == '-' && s[7] == '-' && s[10] == ' ' && s[13] == ':' && s[16] == ':' &&
            s[0..4] == y && s[5..7] == mo && s[8..10] == d && s[11..13] == h && s[14..16] == mi && s[17..19] == se
  {
  }

  /** A valid timestamp renders as 19 characters, `YYYY-MM-DD HH:MM:SS`, from which every field
      reads back. */
  lemma TimestampRoundTrip(t: Timestamp)
    requires ValidTimestamp(t)
    ensures var s := FormatTimestamp(t);
            |s| == 19 && s[4] == '-' && s[7] == '-' && s[10] == ' ' && s[13] == ':' && s[16] == ':' &&
            AllDigits(s[0..4]) && AllDigits(s[5..7]) && AllDigits(s[8..10]) && AllDigits(s[11..13]) &&
            AllDigits(s[14..16]) && AllDigits(s[17..19]) &&
            Text.DigitsValue(s[0..4]) == t.year && Text.DigitsValue(s[5..7]) == t.month &&
            Text.DigitsValue(s[8..10]) == t.day && Text.DigitsValue(s[11..13]) == t.hour &&
            Text.DigitsValue(s[14..16]) == t.minute && Text.DigitsValue(s[17..19]) == t.second
  {
    assert Pow10(2) == 100 && Pow10(4) == 10000;
    DigitCount(t.year, 4);
    DigitCount(t.month, 2);
    DigitCount(t.day, 2);
    DigitCount(t.hour, 2);
    DigitCount(t.minute, 2);
    DigitCount(t.second, 2);
    Layout(ZeroPad(t.year, 4), ZeroPad(t.month, 2), ZeroPad(t.day, 2),
           ZeroPad(t.hour, 2), ZeroPad(t.minute, 2), ZeroPad(t.second, 2));
  }

  const RECALL_HEADING: string := "## Relevant Memory"

  /** One line per recalled entry: `- [time] content`. */
  function RecallLine(e: SemanticEntry): string
  {
    "- [" + FormatTimestamp(e.timestamp) + "] " + e.content
  }

  function RecallLines(entries: seq<SemanticEntry>): (lines: seq<string>)
    ensures |lines| == |entries|
    ensures forall i :: 0 <= i < |entries| ==> lines[i] == RecallLine(entries[i])
  {
    Map(RecallLine, entries)
  }

  /** `f` applied to every element, in order. */
  function Map<A, B>(f: A -> B, s: seq<A>): (r: seq<B>)
    ensures |r| == |s| && forall i :: 0 <= i < |s| ==> r[i] == f(s[i])
  {
    seq(|s|, i requires 0 <= i < |s| => f(s[i]))
  }

  lemma MapSnoc<A, B>(f: A -> B, s: seq<A>, a: A)
    ensures Map(f, s + [a]) == Map(f, s) + [f(a)]
  {
    var l, r := Map(f, s + [a]), Map(f, s) + [f(a)];
    forall i | 0 <= i < |l| ensures l[i] == r[i] {
      if i < |s| {
        assert (s + [a])[i] == s[i];
      } else {
        assert (s + [a])[i] == a;
      }
    }
  }

  /** `context_from_recall`: nothing for no entries, otherwise the heading and one line per entry
      in the given order, separated by newlines. */
  function ContextFromRecall(entries: seq<SemanticEntry>): (r: string)
    ensures entries == [] <==> r == ""
    ensures entries != [] ==> RECALL_HEADING <= r
  {
    if entries == [] then ""
    else
      Text.JoinStartsWithFirst([RECALL_HEADING] + RecallLines(entries), "\n");
      Text.Join([RECALL_HEADING] + RecallLines(entries), "\n")
  }

  lemma RecallLinesSnoc(entries: seq<SemanticEntry>, e: SemanticEntry)
    ensures RecallLines(entries + [e]) == RecallLines(entries) + [RecallLine(e)]
  {
    MapSnoc(RecallLine, entries, e);
  }

  lemma ConsSnoc<T>(h: T, s: seq<T>, x: T)
    ensures [h] + (s + [x]) == [h] + s + [x]
  {
  }

  /** Each further entry adds exactly one line at the end. */
  lemma ContextFromRecallSnoc(entries: seq<SemanticEntry>, e: SemanticEntry)
    requires entries != []
    ensures ContextFromRecall(entries + [e]) == ContextFromRecall(entries) + "\n" + RecallLine(e)
  {
    var rest := RecallLines(entries);
    var lines := [RECALL_HEADING] + rest;
    var last := RecallLine(e);
    RecallLinesSnoc(entries, e);
    ConsSnoc(RECALL_HEADING, rest, last);
    assert ContextFromRecall(entries + [e]) == Text.Join(lines + [last], "\n");
    assert ContextFromRecall(entries) == Text.Join(lines, "\n");
    Text.JoinSnoc(lines, "\n", last);
  }

  /** A single entry gives the heading and its line. */
  lemma ContextFromRecallSingle(e: SemanticEntry)
    ensures ContextFromRecall([e]) == RECALL_HEADING + "\n" + RecallLine(e)
  {
    var last := RecallLine(e);
    assert RecallLines([e]) == [last];
    Text.JoinSnoc([RECALL_HEADING], "\n", last);
  }

  /** `ranking` lists every index of `n` entries exactly once (the similarity sort's output). */
  predicate IsRanking(ranking: seq<nat>, n: nat)
  {
    |ranking| == n && (forall i :: 0 <= i < n ==> ranking[i] < n) &&
    (forall i, j :: 0 <= i < j < n ==> ranking[i] != ranking[j])
  }

  class Memory {
    /** Semantic memory entries. */
    var entries: seq<SemanticEntry>
    var journal: seq<Journal.MemoryEntry>
    var identity: string
    var topology: seq<string>
    var config: MemoryConfig

    ghost predicate Valid()
      reads this
    {
      |journal| <= Journal.MAX_JOURNAL_ENTRIES
    }

    /** `Memory::new`: no entries, journal or topology, and the default configuration. */
    constructor (identity: string, defaultStorageDir: string)
      ensures Valid() && entries == [] && journal == [] && topology == []
      ensures this.identity == identity && config == DefaultConfig(defaultStorageDir)
    {
      entries := [];
      journal := [];
      this.identity := identity;
      topology := [];
      config := DefaultConfig(defaultStorageDir);
    }

    /** `add`: the journal keeps its last 100 entries. */
    method Add(e: Journal.MemoryEntry)
      modifies this
      ensures journal == Journal.KeepLast(old(journal) + [e], Journal.MAX_JOURNAL_ENTRIES) && Valid()
      ensures entries == old(entries) && identity == old(identity) && topology == old(topology)
      ensures config == old(config)
    {
      journal := Journal.PushBounded(journal, e, Journal.MAX_JOURNAL_ENTRIES);
    }

    method AddSystemInfo(info: string)
      modifies this
      ensures journal == Journal.KeepLast(old(journal) + [Journal.SystemInfo(info)], Journal.MAX_JOURNAL_ENTRIES)
      ensures entries == old(entries) && identity == old(identity) && topology == old(topology)
      ensures config == old(config)
    {
      Add(Journal.SystemInfo(info));
    }

    method AddInteraction(query: string, response: string)
      modifies this
      ensures journal == Journal.KeepLast(old(journal) + [Journal.UserInteraction(query, response)], Journal.MAX_JOURNAL_ENTRIES)
      ensures entries == old(entries) && identity == old(identity) && topology == old(topology)
      ensures config == old(config)
    {
      Add(Journal.UserInteraction(query, response));
    }

    method AddToolResult(tool: string, result: string)
      modifies this
      ensures journal == Journal.KeepLast(old(journal) + [Journal.ToolResult(tool, result)], Journal.MAX_JOURNAL_ENTRIES)
      ensures entries == old(entries) && identity == old(identity) && topology == old(topology)
      ensures config == old(config)
    {
      Add(Journal.ToolResult(tool, result));
    }

    method AddObservation(note: string)
      modifies this
      ensures journal == Journal.KeepLast(old(journal) + [Journal.Observation(note)], Journal.MAX_JOURNAL_ENTRIES)
      ensures entries == old(entries) && identity == old(identity) && topology == old(topology)
      ensures config == old(config)
    {
      Add(Journal.Observation(note));
    }

    method AddError(message: string)
      modifies this
      ensures journal == Journal.KeepLast(old(journal) + [Journal.Error(message)], Journal.MAX_JOURNAL_ENTRIES)
      ensures entries == old(entries) && identity == old(identity) && topology == old(topology)
      ensures config == old(config)
    {
      Add(Journal.Error(message));
    }

    method AddTopology(info: string)
      modifies this
      ensures topology == old(topology) + [info]
      ensures entries == old(entries) && journal == old(journal) && identity == old(identity)
      ensures config == old(config)
    {
      topology := topology + [info];
    }

    /** `set_identity`: only the identity changes. */
    method SetIdentity(identity: string)
      modifies this
      ensures this.identity == identity
      ensures entries == old(entries) && journal == old(journal) && topology == old(topology)
      ensures config == old(config)
    {
      this.identity := identity;
    }

    /** The identity section, or none when the identity is empty. */
    function IdentityParts(): (parts: seq<string>)
      reads this
      ensures identity == [] <==> parts == []
      ensures forall i :: 0 <= i < |parts| ==> Journal.SectionTag(parts[i]) == 'I'
    {
      if identity == [] then [] else [Journal.IdentitySection(identity)]
    }

    /** `context`: as the journal memory's, but an empty identity contributes no section. */
    function Context(): (r: string)
      reads this
      ensures identity != [] ==> Journal.IdentitySection(identity) <= r
      ensures identity == [] && topology == [] && journal == [] ==> r == ""
      ensures identity == [] && topology != [] ==> Journal.TopologySection(topology) <= r
      ensures identity == [] && topology == [] && journal != [] ==> r == Journal.HistorySection(journal)
      ensures identity != [] ==> r == Journal.LaidOut(Journal.IdentitySection(identity), topology, journal)
      ensures identity == [] && topology != [] ==> r == Journal.LaidOut(Journal.TopologySection(topology), [], journal)
    {
      var parts := Journal.ContextParts(IdentityParts(), topology, journal);
      if parts == [] then ""
      else
        Text.JoinStartsWithFirst(parts, "\n\n");
        if identity != [] then
          Journal.JoinedSections(Journal.IdentitySection(identity), topology, journal);
          Text.Join(parts, "\n\n")
        else if topology != [] then
          assert parts == Journal.ContextParts([Journal.TopologySection(topology)], [], journal);
          Journal.JoinedSections(Journal.TopologySection(topology), [], journal);
          Text.Join(parts, "\n\n")
        else Text.Join(parts, "\n\n")
    }

    /** `recall`: nothing from an empty store; otherwise the first `top_k` entries in similarity
        order (the order itself, computed from floating-point similarities, is the `ranking`). */
    function Recall(ranking: seq<nat>, topK: nat): (r: seq<SemanticEntry>)
      reads this
      requires entries != [] ==> IsRanking(ranking, |entries|)
      ensures entries == [] ==> r == []
      ensures |r| == if topK < |entries| then topK else |entries|
      ensures forall i :: 0 <= i < |r| ==> r[i] in entries
      ensures forall i :: 0 <= i < |r| ==> r[i] == entries[ranking[i]]
    {
      var es := entries;
      if es == [] then []
      else
        var k := if topK < |es| then topK else |es|;
        seq(k, i requires 0 <= i < k => es[ranking[i]])
    }
  }

  /** Once an identity is set, the semantic memory's context reads exactly like the journal
      memory's for the same identity, topology and journal. */
  lemma ContextAgreesWithJournalMemory(m: Memory, j: Journal.Memory)
    requires m.identity != [] && m.identity == j.identity
    requires m.topology == j.topology && m.journal == j.journal
    ensures m.Context() == j.Context()
  {
  }
}
