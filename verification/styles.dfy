/** The two-tier style handling of the generate endpoint: a local table of
    eight textual prefixes that is prepended to the user's prompt, and the
    provider-level style parameter, which only knows "natural" and "vivid". */
module Styles {
  import opened Json

  /** The outcome of a search: the value found, or nothing. */
  datatype Option<T> = None | Some(value: T)

  /** One row of the style table: a style key and the phrase it prepends. */
  datatype Entry = Entry(key: string, prefix: string)

  /** The style table, in the order the source declares it. */
  const Table: seq<Entry> := [
    Entry("natural", "Create a natural, photorealistic image of"),
    Entry("vivid", "Create a vibrant and colorful image of"),
    Entry("anime", "Create an anime-style illustration of"),
    Entry("fantasy", "Create a magical fantasy artwork of"),
    Entry("cyberpunk", "Create a futuristic cyberpunk scene of"),
    Entry("minimalist", "Create a clean, minimalist representation of"),
    Entry("watercolor", "Create a delicate watercolor painting of"),
    Entry("retro", "Create a vintage, retro-styled image of")
  ]

  /** The key used when the request names no style, and the fallback for unknown keys. */
  const DefaultStyle: string := "natural"

  /** The only style values the provider accepts. */
  const ProviderStyles: seq<string> := ["natural", "vivid"]

  predicate IsKey(k: string) {
    exists i :: 0 <= i < |Table| && Table[i].key == k
  }

  /** No key appears twice, as in any Python dict. */
  predicate DistinctKeys(entries: seq<Entry>) {
    forall i, j :: 0 <= i < j < |entries| ==> entries[i].key != entries[j].key
  }

  lemma TableShape()
    ensures |Table| == 8
    ensures Table[0].key == DefaultStyle && Table[1].key == "vivid"
    ensures DistinctKeys(Table)
  {
  }

  /** Dictionary lookup over the table's rows: the prefix stored under `key`, if any. */
  function Find(entries: seq<Entry>, key: string): (r: Option<string>)
    ensures r.Some? <==> exists i :: 0 <= i < |entries| && entries[i].key == key
    ensures r.Some? ==> exists i :: 0 <= i < |entries| && entries[i] == Entry(key, r.value)
    ensures DistinctKeys(entries) ==>
      forall i :: 0 <= i < |entries| && entries[i].key == key ==> r == Some(entries[i].prefix)
  {
    if |entries| == 0 then None
    else if entries[0].key == key then Some(entries[0].prefix)
    else
      var r := Find(entries[1..], key);
      assert forall i :: 1 <= i < |entries| ==> entries[i] == entries[1..][i - 1];
      r
  }

  /** The table key whose prefix a requested style selects: the style itself when
      it is a string naming a row of the table, and the default otherwise. */
  function EffectiveStyle(style: Value): (k: string)
    ensures IsKey(k)
  {
    assert Table[0].key == DefaultStyle;
    if style.Str? && IsKey(style.s) then style.s else DefaultStyle
  }

  /** `STYLE_PROMPTS.get(style, STYLE_PROMPTS['natural'])`. The lookup never fails:
      a known key selects its own row, and anything else (an unknown string,
      `null`) selects the default row. */
  function PrefixFor(style: Value): (prefix: string)
    ensures exists i :: 0 <= i < |Table| && Table[i] == Entry(EffectiveStyle(style), prefix)
    ensures style.Str? ==>
      forall i :: 0 <= i < |Table| && Table[i].key == style.s ==> prefix == Table[i].prefix
    ensures !(style.Str? && IsKey(style.s)) ==> prefix == Table[0].prefix
  {
    TableShape();
    assert Table[0].key == DefaultStyle;
    var fallback := Find(Table, DefaultStyle).value;
    match style
    case Null => fallback
    case Str(s) =>
      match Find(Table, s)
      case Some(prefix) => prefix
      case None => fallback
  }

  /** The prompt sent to the provider: the style's prefix, a space, then the user's prompt. */
  function Enhance(style: Value, prompt: string): (enhanced: string)
    ensures PrefixFor(style) + " " <= enhanced
    ensures |enhanced| == |PrefixFor(style)| + 1 + |prompt|
    ensures |enhanced| > |prompt| && enhanced[|enhanced| - |prompt|..] == prompt
  {
    PrefixFor(style) + " " + prompt
  }

  /** The style forwarded to the provider: the requested style when it is one of
      the two the provider knows, "natural" otherwise. */
  function ProviderStyle(style: Value): (r: string)
    ensures r == "natural" || r == "vivid"
    ensures (style.Str? && r == style.s) <==> (style == Str("natural") || style == Str("vivid"))
    ensures r == "vivid" <==> EffectiveStyle(style) == "vivid"
  {
    TableShape();
    if style.Str? && style.s in ProviderStyles then style.s else DefaultStyle
  }

  /** What an enhanced prompt starts with when it was built from row `i`. */
  function Lead(i: nat): string
    requires i < |Table|
  {
    Table[i].prefix + " "
  }

  /** Recovers the table key and the user's prompt from an enhanced prompt by
      finding the row whose prefix (and the separating space) it starts with. */
  function SplitBy(entries: seq<Entry>, enhanced: string): (r: Option<(string, string)>)
    ensures r.Some? ==>
      exists i :: 0 <= i < |entries| && entries[i].key == r.value.0 && enhanced == entries[i].prefix + " " + r.value.1
  {
    if |entries| == 0 then None
    else
      var lead := entries[0].prefix + " ";
      if lead <= enhanced then
        assert enhanced == lead + enhanced[|lead|..];
        Some((entries[0].key, enhanced[|lead|..]))
      else
        var r := SplitBy(entries[1..], enhanced);
        assert r.Some? ==>
          exists i :: 1 <= i < |entries| && entries[i].key == r.value.0 && enhanced == entries[i].prefix + " " + r.value.1
        by {
          if r.Some? {
            var i :| 0 <= i < |entries[1..]| && entries[1..][i].key == r.value.0 &&
              enhanced == entries[1..][i].prefix + " " + r.value.1;
            assert entries[i + 1] == entries[1..][i];
          }
        }
        r
  }

  /** The inverse of `Enhance` over the whole table. */
  function Split(enhanced: string): Option<(string, string)> {
    SplitBy(Table, enhanced)
  }

  /** The characters at positions 8, 9 and 11 of each row's lead; no two rows share all three. */
  const Marks: seq<(char, char, char)> := [
    (' ', 'n', 't'), (' ', 'v', 'b'), ('n', ' ', 'n'), (' ', 'm', 'g'),
    (' ', 'f', 't'), (' ', 'c', 'e'), (' ', 'd', 'l'), (' ', 'v', 'n')
  ]

  lemma LeadMark(m: nat)
    requires m < |Table|
    ensures |Lead(m)| > 11 && (Lead(m)[8], Lead(m)[9], Lead(m)[11]) == Marks[m]
  {
  }

  /** Two different rows' leads disagree at a position both of them have, so
      neither is a prefix of a string that starts with the other. */
  lemma LeadsDiffer(i: nat, j: nat)
    requires i < |Table| && j < |Table| && i != j
    ensures exists k :: 0 <= k < |Lead(i)| && k < |Lead(j)| && Lead(i)[k] != Lead(j)[k]
  {
    LeadMark(i);
    LeadMark(j);
    assert Marks[i] != Marks[j];
    if Lead(i)[8] != Lead(j)[8] {
    } else if Lead(i)[9] != Lead(j)[9] {
    } else {
      assert Lead(i)[11] != Lead(j)[11];
    }
  }

  lemma NotLeadOfOther(j: nat, k: nat, prompt: string)
    requires j < |Table| && k < |Table| && j != k
    ensures !(Lead(j) <= Lead(k) + prompt)
  {
    LeadsDiffer(j, k);
    var m :| 0 <= m < |Lead(j)| && m < |Lead(k)| && Lead(j)[m] != Lead(k)[m];
    assert (Lead(k) + prompt)[m] == Lead(k)[m];
  }

  lemma {:induction false} SplitFrom(j: nat, k: nat, prompt: string)
    requires j <= k < |Table|
    ensures SplitBy(Table[j..], Lead(k) + prompt) == Some((Table[k].key, prompt))
    decreases k - j
  {
    var enhanced := Lead(k) + prompt;
    var entries := Table[j..];
    assert entries[0] == Table[j];
    if j == k {
      assert Lead(k) <= enhanced;
      assert enhanced[|Lead(k)|..] == prompt;
    } else {
      NotLeadOfOther(j, k, prompt);
      assert entries[1..] == Table[j + 1..];
      SplitFrom(j + 1, k, prompt);
    }
  }

  /** Splitting an enhanced prompt gives back the effective style key and the
      user's prompt: enhancement loses nothing. */
  lemma {:induction false} SplitEnhance(style: Value, prompt: string)
    ensures Split(Enhance(style, prompt)) == Some((EffectiveStyle(style), prompt))
  {
    TableShape();
    var k :| 0 <= k < |Table| && Table[k] == Entry(EffectiveStyle(style), PrefixFor(style));
    assert Enhance(style, prompt) == Lead(k) + prompt;
    SplitFrom(0, k, prompt);
    assert Table[0..] == Table;
  }

  /** Two requests lead to the same enhanced prompt exactly when they select the
      same table row and carry the same prompt. */
  lemma EnhanceInjective(s1: Value, p1: string, s2: Value, p2: string)
    ensures Enhance(s1, p1) == Enhance(s2, p2) <==> EffectiveStyle(s1) == EffectiveStyle(s2) && p1 == p2
  {
    if Enhance(s1, p1) == Enhance(s2, p2) {
      SplitEnhance(s1, p1);
      SplitEnhance(s2, p2);
    }
    if EffectiveStyle(s1) == EffectiveStyle(s2) {
      TableShape();
      var i :| 0 <= i < |Table| && Table[i] == Entry(EffectiveStyle(s1), PrefixFor(s1));
      var j :| 0 <= j < |Table| && Table[j] == Entry(EffectiveStyle(s2), PrefixFor(s2));
      assert i == j;
    }
  }
}
