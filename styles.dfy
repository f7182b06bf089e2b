/** `Widget.apply_style`: a style given as a dict is rendered to a CSS
    declaration string; the string is split into `;`-separated parts, and
    each part with a `:` sets a trimmed property on the widget's outer node.
    The parse also tells whether a size limit (min/max width/height) was
    set. */
module Styles {
  import opened Wrappers
  import opened Values
  import Text

  /** The argument of `apply_style`: a CSS string, or a dict of property
      names to values in insertion order. */
  datatype Style = StyleText(text: string) | StyleDict(entries: seq<(string, string)>)

  /** A dict is rendered as `k: v` parts joined by `"; "`. */
  function Render(style: Style): (r: string)
    ensures style.StyleDict? && |style.entries| > 0 ==> r != ""
    ensures style.StyleDict? && |style.entries| == 0 ==> r == ""
  {
    match style
    case StyleText(text) => text
    case StyleDict(entries) => Text.Join(DeclTexts(entries), "; ")
  }

  function DeclTexts(entries: seq<(string, string)>): (r: seq<string>)
    ensures |r| == |entries|
    ensures forall i :: 0 <= i < |entries| ==> r[i] == entries[i].0 + ": " + entries[i].1
  {
    seq(|entries|, i requires 0 <= i < |entries| => entries[i].0 + ": " + entries[i].1)
  }

  /** The declarations parsed so far, and whether a part could not be
      unpacked into a key and a value (it holds more than one `:`). */
  datatype Parse = Parse(decls: map<string, string>, failed: bool)

  /** One part: without a `:` it is ignored; with exactly one it sets the
      trimmed key to the trimmed value; with more the unpacking fails. */
  function Step(decls: map<string, string>, part: string): (p: Parse)
    ensures ':' !in part ==> p == Parse(decls, false)
    ensures !p.failed ==> p.decls.Keys >= decls.Keys
  {
    if ':' !in part then Parse(decls, false)
    else
      var kv := Text.Split(part, ':');
      if |kv| != 2 then Parse(decls, true)
      else Parse(decls[Text.Trim(kv[0]) := Text.Trim(kv[1])], false)
  }

  /** The parts in order, stopping at the first one that fails. */
  function Decls(parts: seq<string>): Parse
    decreases |parts|
  {
    if |parts| == 0 then Parse(map[], false)
    else
      var p := Decls(parts[..|parts| - 1]);
      if p.failed then p else Step(p.decls, parts[|parts| - 1])
  }

  /** The whole parse of a style string: an empty string sets nothing. */
  function ParseStyle(text: string): Parse
  {
    if text == "" then Parse(map[], false) else Decls(Text.Split(text, ';'))
  }

  /** The properties whose change makes the layout re-read size limits. */
  const SizeLimitKeys: seq<string> := ["min-width", "min-height", "max-width", "max-height"]

  /** The outer DOM node of a widget, as far as `apply_style` touches it:
      its inline style properties. */
  class OuterNode {
    var style: map<string, string>

    constructor ()
      ensures style == map[]
    {
      style := map[];
    }

    /** `apply_style(style)`: each parsed declaration is written to the
        node as it is parsed; a part that cannot be unpacked raises
        ValueError after the earlier parts were applied. The result tells
        whether one of the size-limit properties was set. */
    method ApplyStyle(s: Style) returns (r: Result<bool, Error>)
      modifies this
      ensures var p := ParseStyle(Render(s));
        && style == old(style) + p.decls
        && r == if p.failed then Failure(ValueError) else Success(SizeLimited(p.decls))
    {
      var text := Render(s);
      var d: map<string, string> := map[];
      if text != "" {
        var parts := Text.Split(text, ';');
        var i := 0;
        while i < |parts|
          invariant 0 <= i <= |parts|
          invariant Decls(parts[..i]) == Parse(d, false)
          invariant style == old(style) + d
        {
          PartApplied(parts, i, d);
          var part := parts[i];
          if ':' in part {
            var kv := Text.Split(part, ':');
            if |kv| != 2 {
              DeclsStopsAtFailure(parts, i + 1);
              return Failure(ValueError);
            }
            var key, val := Text.Trim(kv[0]), Text.Trim(kv[1]);
            UpdateUnion(old(style), d, key, val);
            style := style[key := val];
            d := d[key := val];
          }
          i := i + 1;
        }
        assert parts[..i] == parts;
      }
      var changed := SizeLimitsChanged(d);
      r := Success(changed);
    }
  }

  lemma UpdateUnion(a: map<string, string>, b: map<string, string>, k: string, v: string)
    ensures (a + b)[k := v] == a + b[k := v]
  {
  }

  /** The parse of the parts up to `i` is one more step. */
  lemma PartApplied(parts: seq<string>, i: nat, d: map<string, string>)
    requires i < |parts| && Decls(parts[..i]) == Parse(d, false)
    ensures Decls(parts[..i + 1]) == Step(d, parts[i])
  {
    assert parts[..i + 1] == parts[..i] + [parts[i]];
    DeclsSnoc(parts[..i], parts[i]);
  }

  /** Once a part fails, the parse of any longer prefix is that same
      failure. */
  lemma {:induction false} DeclsStopsAtFailure(parts: seq<string>, n: nat)
    requires n <= |parts| && Decls(parts[..n]).failed
    ensures Decls(parts) == Decls(parts[..n])
    decreases |parts| - n
  {
    if n < |parts| {
      assert parts[..n + 1][..n] == parts[..n];
      DeclsStopsAtFailure(parts, n + 1);
    } else {
      assert parts[..n] == parts;
    }
  }

  /** Whether the parsed declarations set a size limit. */
  predicate SizeLimited(d: map<string, string>)
  {
    exists k :: k in SizeLimitKeys && k in d
  }

  /** The loop over the four size-limit keys. */
  method SizeLimitsChanged(d: map<string, string>) returns (changed: bool)
    ensures changed <==> SizeLimited(d)
  {
    changed := false;
    var i := 0;
    while i < |SizeLimitKeys|
      invariant 0 <= i <= |SizeLimitKeys|
      invariant changed <==> exists j :: 0 <= j < i && SizeLimitKeys[j] in d
    {
      if SizeLimitKeys[i] in d {
        changed := true;
      }
      i := i + 1;
    }
    if SizeLimited(d) {
      var k :| k in SizeLimitKeys && k in d;
      var j :| 0 <= j < |SizeLimitKeys| && SizeLimitKeys[j] == k;
    }
  }

  /** The map a dict of entries denotes: a later entry for the same key
      overwrites an earlier one. */
  function EntriesMap(entries: seq<(string, string)>): map<string, string>
    decreases |entries|
  {
    if |entries| == 0 then map[]
    else EntriesMap(entries[..|entries| - 1])[entries[|entries| - 1].0 := entries[|entries| - 1].1]
  }

  /** An entry whose rendering parses back to itself: trimmed, and free of
      the two separators. */
  predicate PlainEntry(e: (string, string))
  {
    Text.Trimmed(e.0) && Text.Trimmed(e.1) &&
    ':' !in e.0 && ':' !in e.1 && ';' !in e.0 && ';' !in e.1
  }

  /** The parts a rendered dict splits into on `;`: every part after the
      first keeps the space of the `"; "` separator. */
  function RenderedParts(lead: string, texts: seq<string>): (r: seq<string>)
    ensures |r| == |texts|
    ensures forall i :: 0 <= i < |texts| ==> r[i] == (if i == 0 then lead else " ") + texts[i]
  {
    seq(|texts|, i requires 0 <= i < |texts| => (if i == 0 then lead else " ") + texts[i])
  }

  lemma {:induction false} SplitRendered(texts: seq<string>, lead: string)
    requires |texts| >= 1
    requires ';' !in lead
    requires forall i :: 0 <= i < |texts| ==> ';' !in texts[i]
    ensures Text.Split(lead + Text.Join(texts, "; "), ';') == RenderedParts(lead, texts)
    decreases |texts|
  {
    if |texts| == 1 {
      assert ';' !in lead + texts[0];
      Text.SplitNoSeparator(lead + texts[0], ';');
    } else {
      var rest := Text.Join(texts[1..], "; ");
      assert lead + Text.Join(texts, "; ") == (lead + texts[0]) + [';'] + (" " + rest);
      assert ';' !in lead + texts[0];
      Text.SplitAtFirst(lead + texts[0], ';', " " + rest);
      SplitRendered(texts[1..], " ");
      assert RenderedParts(lead, texts) == [lead + texts[0]] + RenderedParts(" ", texts[1..]);
    }
  }

  /** A text with one colon splits at it into a key and a value. */
  lemma SplitKeyValue(k: string, v: string)
    requires ':' !in k && ':' !in v
    ensures Text.Split(k + [':'] + v, ':') == [k, v]
  {
    Text.SplitAtFirst(k, ':', v);
    Text.SplitNoSeparator(v, ':');
  }

  /** A part with exactly one colon sets its trimmed key to its trimmed
      value. */
  lemma StepKeyValue(decls: map<string, string>, k: string, v: string)
    requires ':' !in k && ':' !in v
    ensures Step(decls, k + [':'] + v) == Parse(decls[Text.Trim(k) := Text.Trim(v)], false)
  {
    SplitKeyValue(k, v);
    assert ':' in k + [':'] + v by {
      assert (k + [':'] + v)[|k|] == ':';
    }
  }

  /** Trimming undoes an optional leading space on a trimmed text. */
  lemma TrimLead(lead: string, s: string)
    requires Text.Trimmed(s) && (lead == "" || lead == " ")
    ensures Text.Trim(lead + s) == s
  {
    Text.TrimOfTrimmed(s);
    if lead == " " {
      Text.TrimSkipsLeadingSpace(s);
    } else {
      assert lead + s == s;
    }
  }

  /** A rendered `k: v`, possibly after the separator's space, parses to
      the entry. */
  lemma StepRendered(decls: map<string, string>, e: (string, string), lead: string)
    requires PlainEntry(e) && (lead == "" || lead == " ")
    ensures Step(decls, lead + (e.0 + ": " + e.1)) == Parse(decls[e.0 := e.1], false)
  {
    var key, val := lead + e.0, " " + e.1;
    assert lead + (e.0 + ": " + e.1) == key + [':'] + val;
    assert ':' !in key && ':' !in val;
    StepKeyValue(decls, key, val);
    TrimLead(lead, e.0);
    TrimLead(" ", e.1);
  }

  /** Parsing one more part. */
  lemma DeclsSnoc(parts: seq<string>, part: string)
    ensures Decls(parts + [part]) ==
      if Decls(parts).failed then Decls(parts) else Step(Decls(parts).decls, part)
  {
    assert (parts + [part])[..|parts|] == parts;
  }

  lemma RenderedPartsSnoc(entries: seq<(string, string)>)
    requires |entries| > 0
    ensures var n := |entries|; var last := entries[n - 1];
      RenderedParts("", DeclTexts(entries)) ==
      RenderedParts("", DeclTexts(entries[..n - 1])) + [(if n == 1 then "" else " ") + (last.0 + ": " + last.1)]
  {
    var n := |entries|;
    var a := RenderedParts("", DeclTexts(entries));
    var b := RenderedParts("", DeclTexts(entries[..n - 1]));
    forall i | 0 <= i < n - 1 ensures a[i] == b[i] {
      assert entries[..n - 1][i] == entries[i];
    }
  }

  /** Parsing the parts of a rendered dict gives the dict back, entry by
      entry. */
  lemma {:induction false} DeclsRendered(entries: seq<(string, string)>)
    requires forall i :: 0 <= i < |entries| ==> PlainEntry(entries[i])
    ensures Decls(RenderedParts("", DeclTexts(entries))) == Parse(EntriesMap(entries), false)
    decreases |entries|
  {
    var n := |entries|;
    if n == 0 {
      assert RenderedParts("", DeclTexts(entries)) == [];
    } else {
      var init := entries[..n - 1];
      DeclsRendered(init);
      var last := entries[n - 1];
      var lead := if n == 1 then "" else " ";
      RenderedPartsSnoc(entries);
      DeclsSnoc(RenderedParts("", DeclTexts(init)), lead + (last.0 + ": " + last.1));
      StepRendered(EntriesMap(init), last, lead);
    }
  }

  /** Round trip: applying a dict style sets exactly the dict's entries
      (later keys win), provided keys and values are trimmed and hold no
      separator. */
  lemma DictStyleRoundTrip(entries: seq<(string, string)>)
    requires forall i :: 0 <= i < |entries| ==> PlainEntry(entries[i])
    ensures ParseStyle(Render(StyleDict(entries))) == Parse(EntriesMap(entries), false)
  {
    if |entries| > 0 {
      var texts := DeclTexts(entries);
      forall i | 0 <= i < |texts| ensures ';' !in texts[i] {
        assert PlainEntry(entries[i]);
      }
      SplitRendered(texts, "");
      assert "" + Text.Join(texts, "; ") == Text.Join(texts, "; ");
      DeclsRendered(entries);
    } else {
      assert EntriesMap(entries) == map[];
    }
  }

  /** Later parts win: a well-formed part for a key overrides what earlier
      parts set, and a part without `:` changes nothing. */
  lemma LaterPartWins(parts: seq<string>, key: string, val: string)
    requires !Decls(parts).failed
    requires ':' !in key && ':' !in val && Text.Trimmed(key) && Text.Trimmed(val)
    ensures Decls(parts + [key + ":" + val]) == Parse(Decls(parts).decls[key := val], false)
  {
    assert key + ":" + val == key + [':'] + val;
    DeclsSnoc(parts, key + ":" + val);
    StepKeyValue(Decls(parts).decls, key, val);
    Text.TrimOfTrimmed(key);
    Text.TrimOfTrimmed(val);
  }

  /** A part without a colon is ignored. */
  lemma PartWithoutColonIgnored(parts: seq<string>, part: string)
    requires ':' !in part
    ensures Decls(parts + [part]) == Decls(parts)
  {
    DeclsSnoc(parts, part);
  }
}
