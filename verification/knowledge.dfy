/** The knowledge-marker scanner of the chat handler: the global regular
    expression `\[ADD_KNOWLEDGE:([^\]]+)\]`, removal of its matches from model
    text (`stripKnowledgeTags`) and the merge of their payloads into the
    running knowledge list (`parseKnowledge`). */
module Knowledge {
  import opened Wrappers
  import opened Text

  /** The fixed opening of a knowledge marker. */
  const Open: string := "[ADD_KNOWLEDGE:"

  /** A marker payload: what `([^\]]+)` captures. */
  predicate IsPayload(p: string)
  {
    p != [] && forall j :: 0 <= j < |p| ==> p[j] != ']'
  }

  /** The length of the leading run of characters other than `]`. */
  function RunLength(s: string): (n: nat)
    ensures n <= |s|
    ensures forall j :: 0 <= j < n ==> s[j] != ']'
    ensures n < |s| ==> s[n] == ']'
    decreases |s|
  {
    if s == [] || s[0] == ']' then 0 else 1 + RunLength(s[1..])
  }

  /** One match of the regular expression: the captured payload and the
      number of characters the whole marker spans. */
  datatype Match = Match(payload: string, length: nat)

  /** The regular expression tried at the start of `s`. The greedy `[^\]]+`
      cannot give characters back usefully, since `]` is outside its class,
      so the match exists exactly when the run after the opening is non-empty
      and is followed by `]`. */
  function MatchAt(s: string): (m: Option<Match>)
    ensures m.Some? ==> |Open| < m.value.length <= |s|
  {
    if |Open| <= |s| && s[..|Open|] == Open then
      var rest := s[|Open|..];
      var n := RunLength(rest);
      if 0 < n < |rest| then Some(Match(rest[..n], |Open| + n + 1)) else None
    else None
  }

  /** A match spans the opening, a payload and the closing bracket. */
  lemma MatchAtShape(s: string)
    ensures var m := MatchAt(s);
      m.Some? ==>
        && IsPayload(m.value.payload)
        && m.value.length == |Open| + |m.value.payload| + 1
        && s[..m.value.length] == Open + m.value.payload + "]"
  {
    if |Open| <= |s| && s[..|Open|] == Open {
      var rest := s[|Open|..];
      var n := RunLength(rest);
      if 0 < n < |rest| {
        assert s[..|Open| + n + 1] == Open + rest[..n] + "]";
      }
    }
  }

  /** The converse: every well-formed marker at the start of the text is
      matched, whatever follows it. */
  lemma MatchAtMarker(p: string, t: string)
    requires IsPayload(p)
    ensures MatchAt(Open + p + "]" + t) == Some(Match(p, |Open| + |p| + 1))
  {
    var s := Open + p + "]" + t;
    assert s[..|Open|] == Open;
    var rest := s[|Open|..];
    assert rest == p + "]" + t;
    var n := RunLength(rest);
    assert rest[|p|] == ']';
    assert forall j :: 0 <= j < |p| ==> rest[j] == p[j];
    assert n == |p|;
    assert rest[..n] == p;
  }

  /** A match only looks at the characters it spans. */
  lemma MatchAtExtend(t: string, u: string)
    ensures MatchAt(t).Some? ==> MatchAt(t + u) == MatchAt(t)
  {
    if MatchAt(t).Some? {
      var m := MatchAt(t).value;
      MatchAtShape(t);
      assert t + u == Open + m.payload + "]" + (t[m.length..] + u);
      MatchAtMarker(m.payload, t[m.length..] + u);
    }
  }

  /** The text as the regular expression engine sees it under the `g` flag:
      plain characters and matched markers, left to right, matches never
      overlapping. */
  datatype Token = Plain(c: char) | Tag(payload: string)

  /** Left-to-right scan: a match at the current position is consumed whole,
      otherwise one character is passed over. */
  function Scan(s: string): (ts: seq<Token>)
    ensures forall k :: 0 <= k < |ts| && ts[k].Tag? ==> IsPayload(ts[k].payload)
    decreases |s|
  {
    if s == [] then []
    else match MatchAt(s)
      case Some(m) => MatchAtShape(s); [Tag(m.payload)] + Scan(s[m.length..])
      case None => [Plain(s[0])] + Scan(s[1..])
  }

  /** Writes tokens back as text. */
  function Render(ts: seq<Token>): string
    decreases |ts|
  {
    if ts == [] then []
    else
      (match ts[0]
       case Plain(c) => [c]
       case Tag(p) => Open + p + "]") + Render(ts[1..])
  }

  /** The plain characters, in order: `content.replace(KNOWLEDGE_REGEX, '')`. */
  function PlainText(ts: seq<Token>): string
    decreases |ts|
  {
    if ts == [] then []
    else (if ts[0].Plain? then [ts[0].c] else []) + PlainText(ts[1..])
  }

  /** The captured payloads, in order: the `match[1]` of each `matchAll` result. */
  function Tags(ts: seq<Token>): seq<string>
    decreases |ts|
  {
    if ts == [] then []
    else (if ts[0].Tag? then [ts[0].payload] else []) + Tags(ts[1..])
  }

  function RemoveTags(s: string): string
  {
    PlainText(Scan(s))
  }

  function Payloads(s: string): seq<string>
  {
    Tags(Scan(s))
  }

  /** `stripKnowledgeTags`: delete every match, then trim. */
  function StripKnowledgeTags(s: string): string
  {
    Trim(RemoveTags(s))
  }

  /** The scan loses nothing: rendering its tokens gives back the text. */
  lemma {:induction false} ScanRender(s: string)
    ensures Render(Scan(s)) == s
    decreases |s|
  {
    if s != [] {
      match MatchAt(s)
      case Some(m) =>
        ScanRender(s[m.length..]);
        RenderTagFront(s);
      case None =>
        ScanRender(s[1..]);
        RenderPlainFront(s);
    }
  }

  /** A leading match renders back as the text it matched. */
  lemma RenderTagFront(s: string)
    requires MatchAt(s).Some?
    requires var n := MatchAt(s).value.length; n <= |s| && Render(Scan(s[n..])) == s[n..]
    ensures Render(Scan(s)) == s
  {
    var n := MatchAt(s).value.length;
    RenderTagStep(s);
    Rejoin(s, n, Render(Scan(s)), Render(Scan(s[n..])));
  }

  lemma RenderTagStep(s: string)
    requires MatchAt(s).Some?
    ensures MatchAt(s).value.length <= |s|
    ensures var n := MatchAt(s).value.length;
      Render(Scan(s)) == s[..n] + Render(Scan(s[n..]))
  {
    var m := MatchAt(s).value;
    MatchAtShape(s);
    assert Scan(s) == [Tag(m.payload)] + Scan(s[m.length..]);
  }

  /** Text cut in two and put back together is the text. Like `Recons`,
      `OpenSplit` and `MarkerUntrimmed`, this is a proof step stated as a
      lemma: Dafny proves it unaided, and calling it hands the exact equation
      to the caller's proof, which stays cheap that way. */
  lemma Rejoin(s: string, n: nat, whole: string, tail: string)
    requires n <= |s| && whole == s[..n] + tail && tail == s[n..]
    ensures whole == s
  {
    assert s == s[..n] + s[n..];
  }

  /** A leading plain character renders back as itself. */
  lemma RenderPlainFront(s: string)
    requires s != [] && MatchAt(s).None? && Render(Scan(s[1..])) == s[1..]
    ensures Render(Scan(s)) == s
  {
    assert Scan(s) == [Plain(s[0])] + Scan(s[1..]);
    assert s == [s[0]] + s[1..];
  }

  /** Every match removed costs the text at least the 17 characters of a
      marker with a one-character payload: the 15 of the opening, one of
      payload and the closing bracket. */
  lemma {:induction false} ScanSizes(s: string)
    ensures |RemoveTags(s)| + 17 * |Payloads(s)| <= |s|
    decreases |s|
  {
    if s != [] {
      match MatchAt(s)
      case Some(m) =>
        MatchAtShape(s);
        ScanSizes(s[m.length..]);
        ScanTagFront(s);
        assert |Open| == 15;
      case None =>
        ScanSizes(s[1..]);
        ScanPlainFront(s);
    }
  }

  /** A match at the front is removed whole and its payload comes first. */
  lemma ScanTagFront(s: string)
    requires MatchAt(s).Some?
    ensures var m := MatchAt(s).value;
      && RemoveTags(s) == RemoveTags(s[m.length..])
      && Payloads(s) == [m.payload] + Payloads(s[m.length..])
  {
    var m := MatchAt(s).value;
    assert Scan(s) == [Tag(m.payload)] + Scan(s[m.length..]);
    PlainTextAppend([Tag(m.payload)], Scan(s[m.length..]));
  }

  /** No position of the text starts a match: neither the text itself nor
      any of its suffixes. */
  predicate NoMarker(s: string)
    decreases |s|
  {
    s == [] || (MatchAt(s).None? && NoMarker(s[1..]))
  }

  /** Marker-free text is exactly the text from which the scan extracts
      nothing, and the scan leaves it unchanged. */
  lemma {:induction false} NoMarkerScan(s: string)
    ensures NoMarker(s) <==> Payloads(s) == []
    ensures NoMarker(s) ==> RemoveTags(s) == s
    decreases |s|
  {
    if s != [] {
      match MatchAt(s)
      case Some(m) =>
        assert Scan(s)[0] == Tag(m.payload);
      case None =>
        NoMarkerScan(s[1..]);
        assert Scan(s)[1..] == Scan(s[1..]);
    }
  }

  /** Removal changes the text exactly when the text holds a marker. */
  lemma RemoveTagsChanges(s: string)
    ensures RemoveTags(s) == s <==> NoMarker(s)
  {
    NoMarkerScan(s);
    ScanSizes(s);
  }

  /** Any prefix of marker-free text is marker-free: a match inside the
      prefix would be a match inside the whole text. */
  lemma {:induction false} NoMarkerPrefix(s: string, b: nat)
    requires NoMarker(s) && b <= |s|
    ensures NoMarker(s[..b])
    decreases b
  {
    if b > 0 {
      PrefixNoMatch(s, b);
      NoMarkerPrefix(s[1..], b - 1);
      assert s[..b][1..] == s[1..][..b - 1];
    }
  }

  /** Cutting text short cannot create a match at its start. */
  lemma PrefixNoMatch(s: string, b: nat)
    requires b <= |s| && MatchAt(s).None?
    ensures MatchAt(s[..b]).None?
  {
    assert s[..b] + s[b..] == s;
    MatchAtExtend(s[..b], s[b..]);
  }

  /** Any infix of marker-free text is marker-free. */
  lemma {:induction false} NoMarkerInfix(s: string, a: nat, b: nat)
    requires NoMarker(s) && a <= b <= |s|
    ensures NoMarker(s[a..b])
    decreases a
  {
    if a == 0 {
      NoMarkerPrefix(s, b);
      assert s[..b] == s[a..b];
    } else {
      NoMarkerInfix(s[1..], a - 1, b - 1);
      assert s[1..][a - 1..b - 1] == s[a..b];
    }
  }

  /** On marker-free text stripping is trimming. */
  lemma StripMarkerFree(s: string)
    requires NoMarker(s)
    ensures StripKnowledgeTags(s) == Trim(s)
    ensures Payloads(s) == []
  {
    NoMarkerScan(s);
  }

  /** Trimming cannot create a marker. */
  lemma NoMarkerTrim(c: string)
    requires NoMarker(c)
    ensures NoMarker(Trim(c))
  {
    var a := |c| - |TrimStart(c)|;
    var r := Trim(c);
    TrimShape(c);
    NoMarkerInfix(c, a, a + |r|);
  }

  /** Stripping is idempotent whenever the removal left no marker behind. */
  lemma StripIdempotentWhenClean(s: string)
    requires NoMarker(RemoveTags(s))
    ensures NoMarker(StripKnowledgeTags(s))
    ensures StripKnowledgeTags(StripKnowledgeTags(s)) == StripKnowledgeTags(s)
  {
    var c := RemoveTags(s);
    NoMarkerTrim(c);
    StripMarkerFree(Trim(c));
    TrimIdempotent(c);
  }

  lemma {:induction false} PlainTextAppend(x: seq<Token>, y: seq<Token>)
    ensures PlainText(x + y) == PlainText(x) + PlainText(y)
    ensures Tags(x + y) == Tags(x) + Tags(y)
    decreases |x|
  {
    if x == [] {
      assert x + y == y;
    } else {
      assert (x + y)[0] == x[0];
      assert (x + y)[1..] == x[1..] + y;
      PlainTextAppend(x[1..], y);
      ConcatAssoc(if x[0].Plain? then [x[0].c] else [], PlainText(x[1..]), PlainText(y));
      ConcatAssoc(if x[0].Tag? then [x[0].payload] else [], Tags(x[1..]), Tags(y));
    }
  }

  /** A character other than `[` cannot start a match and is passed over. */
  lemma ScanStep(s: string)
    requires s != [] && s[0] != '['
    ensures Scan(s) == [Plain(s[0])] + Scan(s[1..])
  {
    assert Open[0] == '[';
  }

  /** Text without an opening bracket passes through the scan unchanged and
      contributes no payload. */
  lemma {:induction false} ScanBracketFree(a: string, b: string)
    requires forall j :: 0 <= j < |a| ==> a[j] != '['
    ensures RemoveTags(a + b) == a + RemoveTags(b)
    ensures Payloads(a + b) == Payloads(b)
    decreases |a|
  {
    if a == [] {
      assert a + b == b;
    } else {
      var s := a + b;
      assert s[0] == a[0];
      assert s[1..] == a[1..] + b;
      PlainFront(s);
      ScanBracketFree(a[1..], b);
      Recons(a, RemoveTags(b), RemoveTags(s));
    }
  }

  /** A leading character other than `[` is kept and adds no payload. */
  lemma PlainFront(s: string)
    requires s != [] && s[0] != '['
    ensures RemoveTags(s) == [s[0]] + RemoveTags(s[1..])
    ensures Payloads(s) == Payloads(s[1..])
  {
    ScanStep(s);
    PlainTextAppend([Plain(s[0])], Scan(s[1..]));
  }

  /** Putting the head back in front of the tail (a proof step, see `Rejoin`). */
  lemma Recons(a: string, r: string, x: string)
    requires a != [] && x == [a[0]] + (a[1..] + r)
    ensures x == a + r
  {
    assert a == [a[0]] + a[1..];
  }

  /** A marker followed by more text is scanned as one tag. */
  lemma ScanMarker(p: string, t: string)
    requires IsPayload(p)
    ensures Scan(Open + p + "]" + t) == [Tag(p)] + Scan(t)
  {
    var s := Open + p + "]" + t;
    MatchAtMarker(p, t);
    assert s[|Open| + |p| + 1..] == t;
  }

  /** A marker at the front is removed whole and its payload comes first. */
  lemma ScanMarkerFront(p: string, t: string)
    requires IsPayload(p)
    ensures RemoveTags(Open + p + "]" + t) == RemoveTags(t)
    ensures Payloads(Open + p + "]" + t) == [p] + Payloads(t)
  {
    ScanMarker(p, t);
    PlainTextAppend([Tag(p)], Scan(t));
  }

  /** A position where the text departs from the opening starts no match. */
  lemma MatchAtMismatch(s: string, k: nat)
    requires k < |Open| && k < |s| && s[k] != Open[k]
    ensures MatchAt(s).None?
  {
    if |Open| <= |s| {
      assert s[..|Open|][k] != Open[k];
    }
  }

  /** A character that starts no match is kept and contributes no payload. */
  lemma ScanPlainFront(s: string)
    requires s != [] && MatchAt(s).None?
    ensures RemoveTags(s) == [s[0]] + RemoveTags(s[1..])
    ensures Payloads(s) == Payloads(s[1..])
  {
    PlainTextAppend([Plain(s[0])], Scan(s[1..]));
  }

  /** Removing a marker can join the text on either side into a new marker,
      so stripping is not idempotent in general: for `x` and `y` of one
      character each, "[ADD_[ADD_KNOWLEDGE:x]KNOWLEDGE:y]" strips to
      "[ADD_KNOWLEDGE:y]", which a second pass strips to "". The second pass
      also sees a payload the first did not. */
  lemma StripNotIdempotent(x: string, y: string)
    requires IsPayload(x) && IsPayload(y)
    requires forall j :: 0 <= j < |y| ==> y[j] != '['
    ensures var s := "[ADD_" + (Open + x + "]" + ("KNOWLEDGE:" + y + "]"));
      && StripKnowledgeTags(s) == Open + y + "]"
      && Payloads(s) == [x]
      && StripKnowledgeTags(StripKnowledgeTags(s)) == ""
      && Payloads(StripKnowledgeTags(s)) == [y]
  {
    NestedMarkerRemoval(x, y);
    NestedMarkerPayloads(x, y);
    OpenSplit(y);
    MarkerAlone(y);
  }

  lemma NestedMarkerRemoval(x: string, y: string)
    requires IsPayload(x) && IsPayload(y)
    requires forall j :: 0 <= j < |y| ==> y[j] != '['
    ensures RemoveTags("[ADD_" + (Open + x + "]" + ("KNOWLEDGE:" + y + "]")))
         == "[ADD_" + ("KNOWLEDGE:" + y + "]")
  {
    var tail := "KNOWLEDGE:" + y + "]";
    BrokenOpening(Open + x + "]" + tail);
    ScanMarkerFront(x, tail);
    BracketFreeTail(y);
  }

  lemma NestedMarkerPayloads(x: string, y: string)
    requires IsPayload(x) && IsPayload(y)
    requires forall j :: 0 <= j < |y| ==> y[j] != '['
    ensures Payloads("[ADD_" + (Open + x + "]" + ("KNOWLEDGE:" + y + "]"))) == [x]
  {
    var tail := "KNOWLEDGE:" + y + "]";
    BrokenOpening(Open + x + "]" + tail);
    ScanMarkerFront(x, tail);
    BracketFreeTail(y);
  }

  /** The opening split where `StripNotIdempotent` splits it (a proof step,
      see `Rejoin`). */
  lemma OpenSplit(y: string)
    ensures "[ADD_" + ("KNOWLEDGE:" + y + "]") == Open + y + "]"
  {
    assert "[ADD_" + "KNOWLEDGE:" == Open;
  }

  /** A lone marker strips to nothing and yields its payload. */
  lemma MarkerAlone(y: string)
    requires IsPayload(y)
    ensures Trim(Open + y + "]") == Open + y + "]"
    ensures StripKnowledgeTags(Open + y + "]") == ""
    ensures Payloads(Open + y + "]") == [y]
  {
    MarkerUntrimmed(y);
    MarkerAloneScan(y);
  }

  /** A marker has no whitespace to trim (a proof step, see `Rejoin`). */
  lemma MarkerUntrimmed(y: string)
    ensures Trim(Open + y + "]") == Open + y + "]"
  {
    TrimUntouched(Open + y + "]");
  }

  lemma MarkerAloneScan(y: string)
    requires IsPayload(y)
    ensures RemoveTags(Open + y + "]") == ""
    ensures Payloads(Open + y + "]") == [y]
  {
    var once := Open + y + "]";
    assert once == once + "";
    ScanMarkerFront(y, "");
    NoMarkerScan("");
  }

  /** "[ADD_" directly followed by a marker starts no match of its own. */
  lemma BrokenOpening(rest: string)
    requires rest != [] && rest[0] == '['
    ensures RemoveTags("[ADD_" + rest) == "[ADD_" + RemoveTags(rest)
    ensures Payloads("[ADD_" + rest) == Payloads(rest)
  {
    var s := "[ADD_" + rest;
    assert s[5] == rest[0];
    MatchAtMismatch(s, 5);
    ScanPlainFront(s);
    assert "[ADD_" == ['['] + "ADD_";
    ConcatAssoc(['['], "ADD_", rest);
    assert s[1..] == "ADD_" + rest;
    ScanBracketFree("ADD_", rest);
    ConcatAssoc(['['], "ADD_", RemoveTags(rest));
  }

  lemma BracketFreeTail(y: string)
    requires forall j :: 0 <= j < |y| ==> y[j] != '['
    ensures RemoveTags("KNOWLEDGE:" + y + "]") == "KNOWLEDGE:" + y + "]"
    ensures Payloads("KNOWLEDGE:" + y + "]") == []
  {
    var tail := "KNOWLEDGE:" + y + "]";
    assert tail == tail + "";
    ScanBracketFree(tail, "");
    NoMarkerScan("");
  }

  /** Duplicate markers at the end of a sentence: for the sentence
      "The map is key. " and the payload "map" the text is "The map is key."
      and the knowledge ["map"]. */
  lemma StripAndMergeExample(text: string, p: string)
    requires forall j :: 0 <= j < |text| ==> text[j] != '['
    requires IsPayload(p)
    ensures var s := text + (Open + p + "]" + (Open + p + "]"));
      && StripKnowledgeTags(s) == Trim(text)
      && MergeKnowledge(s, []) == [Trim(p)]
  {
    var marker := Open + p + "]";
    var s := text + (marker + marker);
    TwoMarkersScan(text, p);
    assert StripKnowledgeTags(s) == Trim(text);
    RepeatedPayloadMerged(s, p);
  }

  /** The text before two markers is kept and both payloads are captured. */
  lemma TwoMarkersScan(text: string, p: string)
    requires forall j :: 0 <= j < |text| ==> text[j] != '['
    requires IsPayload(p)
    ensures var s := text + (Open + p + "]" + (Open + p + "]"));
      RemoveTags(s) == text && Payloads(s) == [p, p]
  {
    var marker := Open + p + "]";
    ScanBracketFree(text, marker + marker);
    ScanMarkerFront(p, marker);
    assert marker == marker + "";
    ScanMarkerFront(p, "");
    NoMarkerScan("");
    assert text + "" == text;
  }

  /** A payload captured twice from a text is recorded once. */
  lemma RepeatedPayloadMerged(s: string, p: string)
    requires Payloads(s) == [p, p]
    ensures MergeKnowledge(s, []) == [Trim(p)]
  {
    var q := Trim(p);
    var t := TrimAll(Payloads(s));
    assert t == [q, q];
    assert AddAll([], []) == [];
    AddedTwiceKeptOnce(q);
  }

  /** Adding the same element twice to an empty set keeps one copy. */
  lemma AddedTwiceKeptOnce(q: string)
    ensures AddAll([], [q, q]) == [q]
  {
    assert [q, q][..1] == [q];
    assert [q][..0] == [];
    assert AddAll([], [q]) == [q];
  }

  // ---------------------------------------------------------------------
  // Merging payloads into knowledge (an insertion-ordered Set)

  predicate NoDup(xs: seq<string>)
  {
    forall i, j :: 0 <= i < j < |xs| ==> xs[i] != xs[j]
  }

  /** `Set.prototype.add` on an insertion-ordered set. */
  function Add(acc: seq<string>, x: string): seq<string>
  {
    if x in acc then acc else acc + [x]
  }

  /** Adds the elements of `xs` one after another. */
  function AddAll(acc: seq<string>, xs: seq<string>): seq<string>
    decreases |xs|
  {
    if xs == [] then acc else Add(AddAll(acc, xs[..|xs| - 1]), xs[|xs| - 1])
  }

  /** Each payload trimmed, as `match[1].trim()` does. */
  function TrimAll(xs: seq<string>): seq<string>
  {
    seq(|xs|, i requires 0 <= i < |xs| => Trim(xs[i]))
  }

  /** A recorded item is the part of its payload between the whitespace at
      either end, starts and ends with no whitespace, and is left unchanged
      by a further `trim`. */
  lemma TrimAllClean(xs: seq<string>, i: nat)
    requires i < |xs|
    ensures var t, a := TrimAll(xs)[i], |xs[i]| - |TrimStart(xs[i])|;
      && 0 <= a && a + |t| <= |xs[i]| && xs[i][a..a + |t|] == t
      && (t == [] || (!IsTrimmable(t[0]) && !IsTrimmable(t[|t| - 1])))
      && Trim(t) == t
  {
    TrimShape(xs[i]);
    TrimIdempotent(xs[i]);
  }

  /** The value `parseKnowledge(content, current)` returns: `new Set(current)`
      followed by one `add` per match, read back with `Array.from`. */
  function MergeKnowledge(content: string, current: seq<string>): seq<string>
  {
    AddAll(AddAll([], current), TrimAll(Payloads(content)))
  }

  /** The elements present afterwards are those present before plus those
      added; what was there stays in front, unchanged; what is appended was
      not there before and comes from `xs`. */
  lemma {:induction false} AddAllShape(acc: seq<string>, xs: seq<string>)
    ensures forall x :: x in AddAll(acc, xs) <==> x in acc || x in xs
    ensures |acc| <= |AddAll(acc, xs)| && AddAll(acc, xs)[..|acc|] == acc
    ensures forall p :: |acc| <= p < |AddAll(acc, xs)| ==>
              AddAll(acc, xs)[p] !in acc && AddAll(acc, xs)[p] in xs
    decreases |xs|
  {
    if xs != [] {
      var init := xs[..|xs| - 1];
      AddAllShape(acc, init);
      assert xs == init + [xs[|xs| - 1]];
    }
  }

  /** Adding keeps a duplicate-free list duplicate-free. */
  lemma {:induction false} AddAllNoDup(acc: seq<string>, xs: seq<string>)
    requires NoDup(acc)
    ensures NoDup(AddAll(acc, xs))
    decreases |xs|
  {
    if xs != [] {
      AddAllNoDup(acc, xs[..|xs| - 1]);
    }
  }

  /** Adding into an empty set the elements of a duplicate-free list gives
      that list back. */
  lemma {:induction false} AddAllDistinct(xs: seq<string>)
    requires NoDup(xs)
    ensures AddAll([], xs) == xs
    decreases |xs|
  {
    if xs != [] {
      var init := xs[..|xs| - 1];
      assert NoDup(init);
      AddAllDistinct(init);
      assert xs[|xs| - 1] !in init;
      assert init + [xs[|xs| - 1]] == xs;
    }
  }

  /** The position of the first occurrence of `x`. */
  function FirstIndex(xs: seq<string>, x: string): (k: nat)
    requires x in xs
    ensures k < |xs| && xs[k] == x && x !in xs[..k]
    decreases |xs|
  {
    if xs[0] == x then 0
    else
      var k := 1 + FirstIndex(xs[1..], x);
      assert xs[..k] == [xs[0]] + xs[1..][..k - 1];
      k
  }

  lemma FirstIndexUnique(xs: seq<string>, x: string, k: nat)
    requires k < |xs| && xs[k] == x && x !in xs[..k]
    ensures FirstIndex(xs, x) == k
  {
    var f := FirstIndex(xs, x);
    assert forall i :: 0 <= i < k ==> xs[..k][i] == xs[i];
    assert forall i :: 0 <= i < f ==> xs[..f][i] == xs[i];
  }

  /** What is appended comes in the order of first occurrence in `xs`. */
  lemma {:induction false} AddAllOrder(acc: seq<string>, xs: seq<string>)
    ensures forall p, q :: |acc| <= p < q < |AddAll(acc, xs)| ==>
              AddAll(acc, xs)[p] in xs && AddAll(acc, xs)[q] in xs &&
              FirstIndex(xs, AddAll(acc, xs)[p]) < FirstIndex(xs, AddAll(acc, xs)[q])
    decreases |xs|
  {
    if xs == [] {
      assert AddAll(acc, xs) == acc;
    } else {
      var n := |xs|;
      var init := xs[..n - 1];
      var y := xs[n - 1];
      var prev := AddAll(acc, init);
      var r := AddAll(acc, xs);
      assert xs == init + [y];
      AddAllOrder(acc, init);
      AddAllShape(acc, init);
      forall z | z in init
        ensures z in xs && FirstIndex(xs, z) == FirstIndex(init, z) < n - 1
      {
        var f := FirstIndex(init, z);
        assert init[..f] == xs[..f];
        FirstIndexUnique(xs, z, f);
      }
      if y !in prev {
        assert y !in init;
        FirstIndexUnique(xs, y, n - 1);
      }
      forall p, q | |acc| <= p < q < |r|
        ensures r[p] in xs && r[q] in xs && FirstIndex(xs, r[p]) < FirstIndex(xs, r[q])
      {
        assert r[p] == prev[p] && prev[p] in init;
        if q < |prev| {
          assert r[q] == prev[q] && prev[q] in init;
        } else {
          assert r[q] == y;
        }
      }
    }
  }

  /** What `parseKnowledge` promises, stated of its value. */
  lemma MergeKnowledgeProperties(content: string, current: seq<string>)
    ensures var r := MergeKnowledge(content, current);
      && NoDup(r)
      && (forall x :: x in r <==> x in current || x in TrimAll(Payloads(content)))
      && |AddAll([], current)| <= |r| && r[..|AddAll([], current)|] == AddAll([], current)
  {
    AddAllNoDup([], current);
    AddAllShape([], current);
    AddAllNoDup(AddAll([], current), TrimAll(Payloads(content)));
    AddAllShape(AddAll([], current), TrimAll(Payloads(content)));
  }

  /** Knowledge already free of duplicates is kept as it is, in front. */
  lemma MergeKeepsDistinctKnowledge(content: string, current: seq<string>)
    requires NoDup(current)
    ensures |current| <= |MergeKnowledge(content, current)|
    ensures MergeKnowledge(content, current)[..|current|] == current
  {
    AddAllDistinct(current);
    AddAllShape(current, TrimAll(Payloads(content)));
  }

  /** Marker-free text adds nothing to the knowledge. */
  lemma MergeMarkerFree(content: string, current: seq<string>)
    requires NoMarker(content)
    ensures MergeKnowledge(content, current) == AddAll([], current)
  {
    NoMarkerScan(content);
  }

  /** `parseKnowledge`: a Set seeded with the current knowledge, one `add`
      per regular-expression match. */
  method ParseKnowledge(content: string, current: seq<string>) returns (known: seq<string>)
    ensures known == MergeKnowledge(content, current)
    ensures NoDup(known)
    ensures forall x :: x in known <==> x in current || x in TrimAll(Payloads(content))
  {
    known := [];
    for i := 0 to |current|
      invariant known == AddAll([], current[..i])
    {
      assert current[..i + 1][..i] == current[..i];
      if current[i] !in known {
        known := known + [current[i]];
      }
    }
    assert current[..|current|] == current;
    var matches := Payloads(content);
    var items := TrimAll(matches);
    for j := 0 to |matches|
      invariant known == AddAll(AddAll([], current), items[..j])
    {
      assert items[..j + 1][..j] == items[..j];
      var item := Trim(matches[j]);
      if item !in known {
        known := known + [item];
      }
    }
    assert items[..|matches|] == items;
    MergeKnowledgeProperties(content, current);
  }
}
