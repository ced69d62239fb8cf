/** Tool calls written out and read back: a call rendered from a name and (key, value) pairs parses
    to that name and the JSON object of those pairs. */
module ChatCalls {
  import opened Trimming
  import opened Strings
  import opened Wrappers
  import JsonText
  import opened ChatParse
  import opened ChatMarkers

  // ----- Writing a call -----

  predicate Blank(s: string) {
    forall i :: 0 <= i < |s| ==> IsSpace(s[i])
  }

  predicate Trimmed(s: string) {
    s != "" ==> !IsSpace(s[0]) && !IsSpace(s[|s| - 1])
  }

  /** One parameter, its value padded. */
  function ParameterText(p: (string, string), pad: string): string {
    PARAMETER + (p.0 + ">") + pad + (p.1 + pad) + PARAMETER_END + pad
  }

  function ParametersText(pairs: seq<(string, string)>, pad: string): string {
    if pairs == [] then "" else ParameterText(pairs[0], pad) + ParametersText(pairs[1..], pad)
  }

  /** A call, after `lead` and before `tail`. */
  function CallText(lead: string, name: string, pairs: seq<(string, string)>, pad: string, tail: string): string {
    lead + (FUNCTION + (name + ">" + (pad + ParametersText(pairs, pad) + tail)))
  }

  predicate GoodName(name: string) {
    name != "" && Trimmed(name) && '>' !in name
  }

  /** Neither part ends the parts around it: a key holds no '>' and does not complete a closing
      marker with the one that follows, a value holds no closing marker. */
  predicate GoodPair(p: (string, string)) {
    && p.0 != "" && Trimmed(p.0) && '>' !in p.0 && Find(p.0 + ">", FUNCTION_END) < 0
    && Trimmed(p.1) && Find(p.1, PARAMETER_END) < 0 && Find(p.1, FUNCTION_END) < 0
  }

  predicate GoodPairs(pairs: seq<(string, string)>) {
    forall p :: p in pairs ==> GoodPair(p)
  }

  /** What may follow the parameters: nothing, or the closing marker and anything after it. */
  predicate GoodTail(tail: string) {
    tail == "" || FUNCTION_END <= tail
  }

  // ----- The arguments as JSON -----

  predicate Bracketed(v: string) {
    v != "" && ((v[0] == '{' && v[|v| - 1] == '}') || (v[0] == '[' && v[|v| - 1] == ']'))
  }

  /** A value written as it stands: a JSON scalar, or a valid object or array. */
  predicate Bare(j: JsonOps, v: string) {
    v == "true" || v == "false" || v == "null" || (v != "" && j.isNumber(v)) || (Bracketed(v) && j.isValid(v))
  }

  function Quoted(s: string): string {
    "\"" + JsonText.Escape(s) + "\""
  }

  function MemberText(j: JsonOps, p: (string, string)): string {
    Quoted(p.0) + ":" + if Bare(j, p.1) then p.1 else Quoted(p.1)
  }

  /** The members of an object, separated by commas. */
  function MembersText(j: JsonOps, pairs: seq<(string, string)>): string {
    if pairs == [] then ""
    else if |pairs| == 1 then MemberText(j, pairs[0])
    else MemberText(j, pairs[0]) + "," + MembersText(j, pairs[1..])
  }

  function ObjectText(j: JsonOps, pairs: seq<(string, string)>): string {
    "{" + MembersText(j, pairs) + "}"
  }

  // ----- Decimal indices -----

  /** The number that digits spell. */
  function Spelled(s: string): int {
    if s == "" then 0 else 10 * Spelled(s[..|s| - 1]) + (s[|s| - 1] as int - '0' as int)
  }

  lemma {:induction false} DecimalSpells(n: nat)
    ensures Decimal(n) != "" && Spelled(Decimal(n)) == n
    ensures forall i :: 0 <= i < |Decimal(n)| ==> '0' <= Decimal(n)[i] <= '9'
    ensures n > 0 ==> Decimal(n)[0] != '0'
  {
    var s := Decimal(n);
    if n >= 10 {
      DecimalSpells(n / 10);
      assert s[..|s| - 1] == Decimal(n / 10);
    } else {
      assert s[..|s| - 1] == "";
    }
  }

  // ----- What the markers hide -----

  lemma BlankIsPlain(s: string)
    requires Blank(s)
    ensures Plain(s) && '>' !in s
  {
    NotSpaces();
  }

  lemma NotSpaces()
    ensures !IsSpace('<') && !IsSpace('>')
  {
    assert !InSpaceRanges('<', 5) && !InSpaceRanges('>', 5);
  }

  lemma CallMarkers()
    ensures IsMarker(PARAMETER) && IsMarker(PARAMETER_END) && IsMarker(FUNCTION_END) && IsMarker(FUNCTION)
    ensures Clash(PARAMETER, FUNCTION_END) && Clash(PARAMETER_END, FUNCTION_END)
  {
    assert PARAMETER[1] != FUNCTION_END[1] && PARAMETER_END[2] != FUNCTION_END[2];
  }

  /** Padding a value adds no marker. */
  lemma PaddedIsFree(value: string, pad: string, m: string)
    requires Find(value, m) < 0 && Blank(pad) && m != "" && m[|m| - 1] == '>'
    ensures Find(value + pad, m) < 0
  {
    NotSpaces();
    var s := value + pad;
    forall i: nat | i <= |s| ensures !OccursAt(s, i, m) {
      if i + |m| <= |value| {
        assert s[i..i + |m|] == value[i..i + |m|];
        assert !OccursAt(value, i, m);
      } else if i + |m| <= |s| {
        var last := i + |m| - 1;
        assert s[last] == pad[last - |value|];
        OccursChar(s, i, m, |m| - 1);
      }
    }
  }

  /** A key and its '>' hide a marker they do not complete. */
  lemma KeyHides(key: string, rest: string, m: string)
    requires '>' !in key && Find(key + ">", m) < 0 && m != "" && m[0] == '<' && '>' !in m[..|m| - 1]
    ensures NoneStarts(key + ">", rest, m)
  {
    var a := key + ">";
    var s := a + rest;
    forall i: nat | i < |a| ensures !OccursAt(s, i, m) {
      if i + |m| <= |a| {
        assert s[i..i + |m|] == a[i..i + |m|];
        assert !OccursAt(a, i, m);
      } else {
        var c := |key| - i;
        assert s[|key|] == '>';
        assert m[..|m| - 1][c] == m[c];
        OccursChar(s, i, m, c);
      }
    }
  }

  /** Nothing in a parameter begins the function's closing marker. */
  lemma ParameterHides(p: (string, string), pad: string, rest: string)
    requires GoodPair(p) && Blank(pad)
    ensures NoneStarts(ParameterText(p, pad), rest, FUNCTION_END)
  {
    CallMarkers();
    BlankIsPlain(pad);
    var m, a, b, c := FUNCTION_END, p.0 + ">", pad, p.1 + pad;
    PlainHasNone(pad, rest, m);
    MarkerHides(PARAMETER_END, pad + rest, m);
    HidesJoin(PARAMETER_END, pad, rest, m);
    var end := PARAMETER_END + pad;
    PaddedIsFree(p.1, pad, m);
    assert (end + rest)[0] == '<';
    BodyHides(c, end + rest, m);
    HidesJoin(c, end, rest, m);
    PlainHasNone(b, c + end + rest, m);
    assert c + end + rest == (c + end) + rest;
    HidesJoin(b, c + end, rest, m);
    KeyHides(p.0, b + (c + end) + rest, m);
    HidesJoin(a, b + (c + end), rest, m);
    MarkerHides(PARAMETER, a + (b + (c + end)) + rest, m);
    HidesJoin(PARAMETER, a + (b + (c + end)), rest, m);
    assert ParameterText(p, pad) == PARAMETER + (a + (b + (c + end)));
  }

  lemma {:induction false} ParametersHide(pairs: seq<(string, string)>, pad: string, rest: string)
    requires GoodPairs(pairs) && Blank(pad)
    ensures NoneStarts(ParametersText(pairs, pad), rest, FUNCTION_END)
  {
    if pairs != [] {
      ParametersHide(pairs[1..], pad, rest);
      ParameterHides(pairs[0], pad, ParametersText(pairs[1..], pad) + rest);
      HidesJoin(ParameterText(pairs[0], pad), ParametersText(pairs[1..], pad), rest, FUNCTION_END);
    }
  }

  // ----- Reading a parameter -----

  lemma FoundAfter(a: string, m: string, rest: string)
    requires NoneStarts(a, m + rest, m)
    ensures Find(a + (m + rest), m) == |a|
  {
    assert (m + rest)[0..0 + |m|] == m;
    FindIs(m + rest, m, 0);
    FindSkips(a, m + rest, m);
  }

  lemma CharFound(a: string, rest: string)
    requires '>' !in a
    ensures Find(a + (">" + rest), ">") == |a|
  {
    var s := a + (">" + rest);
    forall i: nat | i < |a| ensures !OccursAt(s, i, ">") {
      assert s[i] == a[i];
      OccursChar(s, i, ">", 0);
    }
    FoundAfter(a, ">", rest);
  }

  lemma TrimPadded(pad: string, value: string)
    requires Blank(pad) && Trimmed(value)
    ensures Trim(pad + (value + pad)) == value
  {
    hide IsSpace;
    hide Strip;
    Assoc(pad, value, pad);
    StripPadded(pad, value, pad, IsSpace);
  }

  lemma StripPadded<T>(a: seq<T>, v: seq<T>, b: seq<T>, blank: T -> bool)
    requires (forall i :: 0 <= i < |a| ==> blank(a[i])) && forall i :: 0 <= i < |b| ==> blank(b[i])
    requires v != [] ==> !blank(v[0]) && !blank(v[|v| - 1])
    ensures Strip(a + v + b, blank) == v
  {
    hide Strip;
    var s := a + v + b;
    forall i | 0 <= i < |a| ensures blank(s[i]) {
      assert s[i] == a[i];
    }
    forall i | |a| + |v| <= i < |s| ensures blank(s[i]) {
      assert s[i] == b[i - |a| - |v|];
    }
    if v == [] {
      StripBlank(s, blank);
    } else {
      assert s[|a|] == v[0] && s[|a| + |v| - 1] == v[|v| - 1];
      StripIs(s, blank, |a|, |a| + |v|);
    }
  }

  lemma TrimOfTrimmed(s: string)
    requires Trimmed(s)
    ensures Trim(s) == s
  {
    hide IsSpace;
    StripPadded("", s, "", IsSpace);
    assert "" + s + "" == s;
  }

  /** What follows a parameter's opening marker, taken apart. */
  lemma EntryIs(cursor: string, lead: string, key: string, body: string, rest: string)
    requires cursor == lead + (PARAMETER + (key + (">" + (body + (PARAMETER_END + rest)))))
    requires Plain(lead) && '>' !in key && NoneStarts(body, PARAMETER_END + rest, PARAMETER_END)
    ensures NextEntry(cursor) == Entry(Trim(key), Trim(body), rest)
  {
    CallMarkers();
    var region := body + (PARAMETER_END + rest);
    var after := key + (">" + region);
    PlainHasNone(lead, PARAMETER + after, PARAMETER);
    FoundAfter(lead, PARAMETER, after);
    CutAfter(lead, PARAMETER, after);
    CharFound(key, region);
    CutAfter(key, ">", region);
    FoundAfter(body, PARAMETER_END, rest);
    CutAfter(body, PARAMETER_END, rest);
    hide Find;
    hide Trim;
  }

  lemma CutAfter(a: string, m: string, rest: string)
    ensures (a + (m + rest))[..|a|] == a && (a + (m + rest))[|a| + |m|..] == rest
  {
  }

  lemma ParameterParses(lead: string, p: (string, string), pad: string, rest: string)
    requires Plain(lead) && GoodPair(p) && Blank(pad)
    ensures NextEntry(lead + (ParameterText(p, pad) + rest)) == Entry(p.0, p.1, pad + rest)
  {
    CallMarkers();
    BlankIsPlain(pad);
    var body, end := pad + (p.1 + pad), PARAMETER_END + (pad + rest);
    PaddedIsFree(p.1, pad, PARAMETER_END);
    assert end[0] == '<';
    BodyHides(p.1 + pad, end, PARAMETER_END);
    PlainHasNone(pad, (p.1 + pad) + end, PARAMETER_END);
    HidesJoin(pad, p.1 + pad, end, PARAMETER_END);
    assert ParameterText(p, pad) + rest == PARAMETER + (p.0 + (">" + (body + end)));
    EntryIs(lead + (ParameterText(p, pad) + rest), lead, p.0, body, pad + rest);
    TrimOfTrimmed(p.0);
    TrimPadded(pad, p.1);
  }

  lemma {:induction false} ParametersParse(lead: string, pairs: seq<(string, string)>, pad: string, done: seq<(string, string)>)
    requires Plain(lead) && GoodPairs(pairs) && Blank(pad)
    ensures Entries(lead + ParametersText(pairs, pad), done) == done + pairs
    decreases |pairs|
  {
    hide NextEntry;
    hide ParameterText;
    hide Plain;
    hide Blank;
    if pairs == [] {
      NoParameter(lead);
      assert lead + ParametersText(pairs, pad) == lead && done + pairs == done;
    } else {
      var p, rest := pairs[0], ParametersText(pairs[1..], pad);
      assert GoodPair(p);
      hide Find;
      hide Trimmed;
      BlankIsPlain(pad);
      ParameterParses(lead, p, pad, rest);
      ParametersParse(pad, pairs[1..], pad, done + [p]);
      assert AddEntry(done, p.0, p.1) == done + [p];
      assert done + [p] + pairs[1..] == done + pairs;
    }
  }

  lemma NoParameter(lead: string)
    requires Plain(lead)
    ensures NextEntry(lead) == NoEntry
  {
    CallMarkers();
    PlainIsFree(lead, PARAMETER);
  }

  lemma HeaderIs(lead: string, name: string, region: string)
    requires Plain(lead) && '>' !in name && Trim(name) != ""
    ensures
      var close := Find(region, FUNCTION_END);
      Header(lead + (FUNCTION + (name + (">" + region)))) == Some((Trim(name), if close < 0 then region else region[..close]))
  {
    CallMarkers();
    var after := name + (">" + region);
    PlainHasNone(lead, FUNCTION + after, FUNCTION);
    FoundAfter(lead, FUNCTION, after);
    CutAfter(lead, FUNCTION, after);
    CharFound(name, region);
    CutAfter(name, ">", region);
    HeaderAt(lead + (FUNCTION + after), |lead|, after, |name|, name, region);
    hide *;
  }

  lemma HeaderAt(body: string, open: nat, after: string, gt: nat, name: string, region: string)
    requires Find(body, FUNCTION) == open && body[open + |FUNCTION|..] == after
    requires Find(after, ">") == gt && after[..gt] == name && after[gt + 1..] == region && Trim(name) != ""
    ensures
      var close := Find(region, FUNCTION_END);
      Header(body) == Some((Trim(name), if close < 0 then region else region[..close]))
  {
    hide Find;
    hide Trim;
  }

  lemma RegionEnds(params: string, tail: string)
    requires GoodTail(tail) && NoneStarts(params, tail, FUNCTION_END)
    ensures
      var close := Find(params + tail, FUNCTION_END);
      (if close < 0 then params + tail else (params + tail)[..close]) == params
  {
    if tail == "" {
      HiddenIsFree(params, FUNCTION_END);
      assert params + tail == params;
    } else {
      var rest := tail[|FUNCTION_END|..];
      assert tail == FUNCTION_END + rest;
      FoundAfter(params, FUNCTION_END, rest);
      CutAfter(params, FUNCTION_END, rest);
    }
  }

  lemma HeaderParses(lead: string, name: string, params: string, tail: string)
    requires Plain(lead) && GoodName(name) && GoodTail(tail) && NoneStarts(params, tail, FUNCTION_END)
    ensures Header(lead + (FUNCTION + (name + ">" + (params + tail)))) == Some((name, params))
  {
    hide Header;
    hide Find;
    hide Plain;
    hide Trim;
    TrimOfTrimmed(name);
    HeaderIs(lead, name, params + tail);
    RegionEnds(params, tail);
    assert name + ">" + (params + tail) == name + (">" + (params + tail));
  }

  // ----- The JSON text -----

  lemma CoercedIs(j: JsonOps, v: string)
    requires Trimmed(v)
    ensures Coerce(j, v) == if Bare(j, v) then v else Quoted(v)
  {
    TrimOfTrimmed(v);
  }

  lemma {:induction false} MembersTextSnoc(j: JsonOps, pairs: seq<(string, string)>)
    requires pairs != []
    ensures
      var n := |pairs| - 1;
      MembersText(j, pairs) == MembersText(j, pairs[..n]) + (if n > 0 then "," else "") + MemberText(j, pairs[n])
  {
    hide MemberText;
    var n := |pairs| - 1;
    if n > 0 {
      MembersTextSnoc(j, pairs[1..]);
      assert pairs[1..][..n - 1] == pairs[..n][1..];
      if n == 1 {
        assert pairs[..n] == [pairs[0]];
      }
    }
  }

  lemma {:induction false} MembersAre(j: JsonOps, pairs: seq<(string, string)>)
    requires GoodPairs(pairs)
    ensures Members(j, pairs) == MembersText(j, pairs)
  {
    hide Coerce;
    hide Bare;
    if pairs != [] {
      var n := |pairs| - 1;
      MembersAre(j, pairs[..n]);
      assert GoodPair(pairs[n]);
      CoercedIs(j, pairs[n].1);
      MembersTextSnoc(j, pairs);
      MemberIs(j, MembersText(j, pairs[..n]) + (if n > 0 then "," else ""), pairs[n]);
      hide MemberText;
      hide GoodPair;
    }
  }

  lemma MemberIs(j: JsonOps, before: string, p: (string, string))
    requires Trimmed(p.1)
    ensures before + "\"" + JsonText.Escape(p.0) + "\":" + Coerce(j, p.1) == before + MemberText(j, p)
  {
    hide Coerce;
    hide Bare;
    CoercedIs(j, p.1);
    var value := Coerce(j, p.1);
    assert "\"" + JsonText.Escape(p.0) + "\"" + ":" + value == "\"" + JsonText.Escape(p.0) + "\":" + value;
    Assoc(before, "\"" + JsonText.Escape(p.0), "\":" + value);
    Assoc(before, "\"", JsonText.Escape(p.0));
  }

  // ----- The round trip -----

  lemma CallParses(j: JsonOps, lead: string, name: string, pairs: seq<(string, string)>, pad: string, tail: string, index: nat)
    requires Plain(lead) && GoodName(name) && GoodPairs(pairs) && Blank(pad) && GoodTail(tail)
    ensures CallOf(j, CallText(lead, name, pairs, pad, tail), index)
         == Some(ToolCall("call_" + Decimal(index), name, ObjectText(j, pairs)))
  {
    BlankIsPlain(pad);
    CallMarkers();
    var params := pad + ParametersText(pairs, pad);
    ParametersHide(pairs, pad, tail);
    PlainHasNone(pad, ParametersText(pairs, pad) + tail, FUNCTION_END);
    HidesJoin(pad, ParametersText(pairs, pad), tail, FUNCTION_END);
    HeaderParses(lead, name, params, tail);
    ParametersParse(pad, pairs, pad, []);
    assert [] + pairs == pairs;
    MembersAre(j, pairs);
  }

  /** Reading back a written call: for any name and any pairs that are trimmed, have keys and hold no
      marker, in any whitespace padding, with or without the closing marker. */
  method ReadBack(j: JsonOps, lead: string, name: string, pairs: seq<(string, string)>, pad: string, tail: string, index: nat)
    returns (call: Option<ToolCall>)
    requires Plain(lead) && GoodName(name) && GoodPairs(pairs) && Blank(pad) && GoodTail(tail)
    ensures call == Some(ToolCall("call_" + Decimal(index), name, ObjectText(j, pairs)))
  {
    call := ParseQwenToolCall(j, CallText(lead, name, pairs, pad, tail), index);
    CallParses(j, lead, name, pairs, pad, tail, index);
  }
}
