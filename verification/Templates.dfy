/** Lot templates: what is accepted once must render later (backend/app/services/lot_templates.py,
    durations.py, and the rendering in lot_auto_manager.py).

    A template is a Python format string; strings are sequences of code points. */
module Templates {
  import opened Rows

  // ---- Format strings ---------------------------------------------------------------------------

  datatype Part = Text(c: char) | Field(name: string, spec: string, conversion: Option<char>)
  datatype Parsed = Malformed | Parts(parts: seq<Part>)

  function Prepend(p: Part, rest: Parsed): Parsed { if rest.Malformed? then Malformed else Parts([p] + rest.parts) }

  /** Index of the first `]` from `i` on, or the end. */
  function BracketEnd(s: string, i: nat): (n: nat)
    requires i <= |s|
    ensures i <= n <= |s|
    decreases |s| - i
  {
    if i == |s| || s[i] == ']' then i else BracketEnd(s, i + 1)
  }

  /** Where the field name ends: at `}`, `:`, `!` or the end; None for a `{` inside the name. */
  function NameEnd(s: string, i: nat): (n: Option<nat>)
    requires i <= |s|
    ensures n.Some? ==> i <= n.value <= |s| && (n.value < |s| ==> s[n.value] == '}' || s[n.value] == ':' || s[n.value] == '!')
    decreases |s| - i
  {
    if i == |s| || s[i] == '}' || s[i] == ':' || s[i] == '!' then Some(i)
    else if s[i] == '{' then None
    else if s[i] == '[' then NameEnd(s, BracketEnd(s, i + 1))
    else NameEnd(s, i + 1)
  }

  /** The `}` that closes the format specification, `depth` braces deep. */
  function SpecEnd(s: string, i: nat, depth: nat): (n: Option<nat>)
    requires i <= |s| && depth > 0
    ensures n.Some? ==> i <= n.value < |s| && s[n.value] == '}'
    decreases |s| - i
  {
    if i == |s| then None
    else if s[i] == '{' then SpecEnd(s, i + 1, depth + 1)
    else if s[i] != '}' then SpecEnd(s, i + 1, depth)
    else if depth == 1 then Some(i)
    else SpecEnd(s, i + 1, depth - 1)
  }

  /** The field after an opening brace and what follows its closing brace. */
  function ParseField(s: string): (r: Option<(Part, string)>)
    ensures r.Some? ==> |r.value.1| < |s|
  {
    var n := NameEnd(s, 0);
    if n.None? || n.value == |s| then None
    else
      var name := s[..n.value];
      if s[n.value] == '}' then Some((Field(name, "", None), s[n.value + 1..]))
      else if s[n.value] == ':' then
        var m := SpecEnd(s, n.value + 1, 1);
        if m.None? then None else Some((Field(name, s[n.value + 1..m.value], None), s[m.value + 1..]))
      else if n.value + 2 >= |s| then None
      else if s[n.value + 2] == '}' then Some((Field(name, "", Some(s[n.value + 1])), s[n.value + 3..]))
      else if s[n.value + 2] != ':' then None
      else
        var m := SpecEnd(s, n.value + 3, 1);
        if m.None? then None else Some((Field(name, s[n.value + 3..m.value], Some(s[n.value + 1])), s[m.value + 1..]))
  }

  function Parse(s: string): Parsed
    decreases |s|
  {
    if s == "" then Parts([])
    else if s[0] == '}' then
      if |s| > 1 && s[1] == '}' then Prepend(Text('}'), Parse(s[2..])) else Malformed
    else if s[0] != '{' then Prepend(Text(s[0]), Parse(s[1..]))
    else if |s| == 1 then Malformed
    else if s[1] == '{' then Prepend(Text('{'), Parse(s[2..]))
    else
      var field := ParseField(s[1..]);
      if field.None? then Malformed else Prepend(field.value.0, Parse(field.value.1))
  }

  // ---- Spelling ---------------------------------------------------------------------------------

  predicate NoBraces(s: string) { forall k :: 0 <= k < |s| ==> s[k] != '{' && s[k] != '}' }

  /** A name that ends nowhere before its end, and a specification without nested fields. */
  ghost predicate Spellable(p: Part) {
    p.Field? ==> NoBraces(p.name + p.spec) && forall k :: 0 <= k < |p.name| ==> p.name[k] != ':' && p.name[k] != '!' && p.name[k] != '['
  }

  ghost function Conversion(c: Option<char>): string { if c.None? then "" else ['!', c.value] }

  /** How a part is written: braces are doubled, a field stands in braces. */
  ghost function Spelling(p: Part): string {
    if p == Text('{') then "{{"
    else if p == Text('}') then "}}"
    else if p.Text? then [p.c]
    else "{" + p.name + Conversion(p.conversion) + (if p.spec == "" then "" else ":") + p.spec + "}"
  }

  ghost function Spelled(parts: seq<Part>): string { if parts == [] then "" else Spelling(parts[0]) + Spelled(parts[1..]) }

  lemma {:induction false} NameEndsAt(s: string, i: nat, n: nat)
    requires i <= n < |s| && (s[n] == '}' || s[n] == ':' || s[n] == '!')
    requires forall k :: i <= k < n ==> s[k] != '{' && s[k] != '}' && s[k] != ':' && s[k] != '!' && s[k] != '['
    ensures NameEnd(s, i) == Some(n)
    decreases n - i
  {
    if i < n {
      NameEndsAt(s, i + 1, n);
    }
  }

  lemma {:induction false} SpecEndsAt(s: string, i: nat, n: nat)
    requires i <= n < |s| && s[n] == '}' && forall k :: i <= k < n ==> s[k] != '{' && s[k] != '}'
    ensures SpecEnd(s, i, 1) == Some(n)
    decreases n - i
  {
    if i < n {
      SpecEndsAt(s, i + 1, n);
    }
  }

  /** A field whose name ends at `n`, and whose specification, if there is one, ends at `m`. */
  lemma BareField(s: string, n: nat)
    requires n < |s| && s[n] == '}' && NameEnd(s, 0) == Some(n)
    ensures ParseField(s) == Some((Field(s[..n], "", None), s[n + 1..]))
  {
  }

  lemma SpecifiedField(s: string, n: nat, m: nat)
    requires n < m < |s| && s[n] == ':' && NameEnd(s, 0) == Some(n) && SpecEnd(s, n + 1, 1) == Some(m)
    ensures ParseField(s) == Some((Field(s[..n], s[n + 1..m], None), s[m + 1..]))
  {
  }

  lemma ConvertedField(s: string, n: nat)
    requires n + 2 < |s| && s[n] == '!' && s[n + 2] == '}' && NameEnd(s, 0) == Some(n)
    ensures ParseField(s) == Some((Field(s[..n], "", Some(s[n + 1])), s[n + 3..]))
  {
  }

  lemma FullField(s: string, n: nat, m: nat)
    requires n + 2 < m < |s| && s[n] == '!' && s[n + 2] == ':' && NameEnd(s, 0) == Some(n) && SpecEnd(s, n + 3, 1) == Some(m)
    ensures ParseField(s) == Some((Field(s[..n], s[n + 3..m], Some(s[n + 1])), s[m + 1..]))
  {
  }

  lemma NameEndsFirst(name: string, tail: string)
    requires tail != "" && (tail[0] == '}' || tail[0] == ':' || tail[0] == '!') && NoBraces(name)
    requires forall k :: 0 <= k < |name| ==> name[k] != ':' && name[k] != '!' && name[k] != '['
    ensures NameEnd(name + tail, 0) == Some(|name|)
  {
    assert forall k :: 0 <= k < |name| ==> (name + tail)[k] == name[k];
    NameEndsAt(name + tail, 0, |name|);
  }

  lemma Slices(head: string, middle: string, rest: string)
    ensures var s := head + (middle + ("}" + rest));
            && s[..|head|] == head && s[|head|..|head| + |middle|] == middle
            && s[|head| + |middle|] == '}' && s[|head| + |middle| + 1..] == rest
  {
  }

  /** What stands between the name and the specification or the closing brace. */
  ghost function Middle(p: Part): string
    requires p.Field?
  {
    Conversion(p.conversion) + if p.spec == "" then "" else ":"
  }

  lemma BareParsesBack(name: string, rest: string)
    requires NameEnd(name + ("}" + rest), 0) == Some(|name|)
    ensures ParseField(name + ("}" + rest)) == Some((Field(name, "", None), rest))
  {
    Slices(name, "", rest);
    assert name + ("" + ("}" + rest)) == name + ("}" + rest);
    BareField(name + ("}" + rest), |name|);
  }

  lemma ConvertedParsesBack(name: string, c: char, rest: string)
    requires NameEnd(name + ['!', c] + ("}" + rest), 0) == Some(|name|)
    ensures ParseField(name + ['!', c] + ("}" + rest)) == Some((Field(name, "", Some(c)), rest))
  {
    var head, s := name + ['!', c], name + ['!', c] + ("}" + rest);
    assert "" + ("}" + rest) == "}" + rest;
    Slices(head, "", rest);
    assert |head| == |name| + 2 && head[|name|] == '!' && head[|name| + 1] == c && head[..|name|] == name;
    assert s[..|head|] == head && s[|name| + 3..] == rest;
    assert s[..|name|] == s[..|head|][..|name|];
    ConvertedField(s, |name|);
  }

  /** A field with a specification whose text starts at `m`. */
  ghost predicate Specifies(s: string, m: nat, spec: string, rest: string) {
    && m + |spec| < |s| && s[m..m + |spec|] == spec && s[m + |spec|] == '}' && s[m + |spec| + 1..] == rest && NoBraces(spec)
  }

  lemma SpecificationEnds(s: string, m: nat, spec: string, rest: string)
    requires Specifies(s, m, spec, rest)
    ensures SpecEnd(s, m, 1) == Some(m + |spec|)
  {
    assert forall k :: m <= k < m + |spec| ==> s[k] == spec[k - m];
    SpecEndsAt(s, m, m + |spec|);
  }

  lemma SpecifiedParsesBack(s: string, name: string, spec: string, rest: string)
    requires |name| < |s| && s[..|name|] == name && s[|name|] == ':' && NameEnd(s, 0) == Some(|name|)
    requires Specifies(s, |name| + 1, spec, rest)
    ensures ParseField(s) == Some((Field(name, spec, None), rest))
  {
    SpecificationEnds(s, |name| + 1, spec, rest);
    SpecifiedField(s, |name|, |name| + 1 + |spec|);
  }

  lemma FullParsesBack(s: string, name: string, c: char, spec: string, rest: string)
    requires |name| + 2 < |s| && s[..|name|] == name && s[|name|] == '!' && s[|name| + 1] == c && s[|name| + 2] == ':'
    requires NameEnd(s, 0) == Some(|name|) && Specifies(s, |name| + 3, spec, rest)
    ensures ParseField(s) == Some((Field(name, spec, Some(c)), rest))
  {
    SpecificationEnds(s, |name| + 3, spec, rest);
    FullField(s, |name|, |name| + 3 + |spec|);
  }

  lemma SpecifiedSlices(head: string, spec: string, rest: string)
    requires NoBraces(spec)
    ensures Specifies(head + (spec + ("}" + rest)), |head|, spec, rest)
  {
    Slices(head, spec, rest);
  }

  lemma SpellableParts(p: Part)
    requires p.Field? && Spellable(p)
    ensures NoBraces(p.name) && NoBraces(p.spec)
  {
    assert forall k :: 0 <= k < |p.name| ==> p.name[k] == (p.name + p.spec)[k];
    assert forall k :: 0 <= k < |p.spec| ==> p.spec[k] == (p.name + p.spec)[|p.name| + k];
  }

  lemma TailStarts(p: Part, rest: string)
    requires p.Field?
    ensures var tail := Middle(p) + (p.spec + ("}" + rest)); tail != "" && (tail[0] == '}' || tail[0] == ':' || tail[0] == '!')
  {
    if p.conversion.Some? {
      assert Middle(p)[0] == '!';
    } else if p.spec != "" {
      assert Middle(p)[0] == ':';
    } else {
      assert Middle(p) == "" && p.spec + ("}" + rest) == "}" + rest;
    }
  }

  lemma Associates(a: string, b: string, c: string)
    ensures a + (b + c) == a + b + c
  {
  }

  lemma FieldNameEnds(p: Part, rest: string)
    requires p.Field? && Spellable(p)
    ensures NameEnd(p.name + Middle(p) + (p.spec + ("}" + rest)), 0) == Some(|p.name|) && NoBraces(p.spec)
  {
    SpellableParts(p);
    TailStarts(p, rest);
    NameEndsFirst(p.name, Middle(p) + (p.spec + ("}" + rest)));
    Associates(p.name, Middle(p), p.spec + ("}" + rest));
  }

  lemma PlainFieldParsesBack(p: Part, rest: string)
    requires p.Field? && Spellable(p) && p.spec == ""
    ensures ParseField(p.name + Middle(p) + (p.spec + ("}" + rest))) == Some((p, rest))
  {
    FieldNameEnds(p, rest);
    assert p.spec + ("}" + rest) == "}" + rest;
    if p.conversion.None? {
      assert p.name + Middle(p) == p.name;
      BareParsesBack(p.name, rest);
    } else {
      assert Middle(p) == ['!', p.conversion.value];
      ConvertedParsesBack(p.name, p.conversion.value, rest);
    }
  }

  lemma HeadSlices(head: string, name: string, middle: string, tail: string)
    requires head == name + middle
    ensures var s := head + tail;
            s[..|name|] == name && forall k :: 0 <= k < |middle| ==> s[|name| + k] == middle[k]
  {
  }

  lemma FieldParsesBack(p: Part, rest: string)
    requires p.Field? && Spellable(p)
    ensures ParseField(p.name + Middle(p) + (p.spec + ("}" + rest))) == Some((p, rest))
  {
    if p.spec == "" {
      PlainFieldParsesBack(p, rest);
    } else {
      FieldNameEnds(p, rest);
      var head := p.name + Middle(p);
      var s := head + (p.spec + ("}" + rest));
      SpecifiedSlices(head, p.spec, rest);
      HeadSlices(head, p.name, Middle(p), p.spec + ("}" + rest));
      if p.conversion.None? {
        assert Middle(p) == ":";
        assert s[|p.name|] == Middle(p)[0];
        SpecifiedParsesBack(s, p.name, p.spec, rest);
      } else {
        assert Middle(p) == ['!', p.conversion.value, ':'];
        assert s[|p.name|] == Middle(p)[0] && s[|p.name| + 1] == Middle(p)[1] && s[|p.name| + 2] == Middle(p)[2];
        FullParsesBack(s, p.name, p.conversion.value, p.spec, rest);
      }
    }
  }

  lemma Regroup(name: string, conversion: string, colon: string, spec: string, rest: string)
    ensures "{" + name + conversion + colon + spec + "}" + rest == "{" + (name + (conversion + colon) + (spec + ("}" + rest)))
  {
    assert spec + "}" + rest == spec + ("}" + rest);
    assert name + conversion + colon == name + (conversion + colon);
    assert "{" + name + conversion + colon == "{" + (name + (conversion + colon));
  }

  lemma FieldSpelling(p: Part, rest: string)
    requires p.Field?
    ensures Spelling(p) + rest == "{" + (p.name + Middle(p) + (p.spec + ("}" + rest)))
  {
    Regroup(p.name, Conversion(p.conversion), if p.spec == "" then "" else ":", p.spec, rest);
  }

  lemma PartParsesBack(p: Part, rest: string)
    requires Spellable(p)
    ensures Parse(Spelling(p) + rest) == Prepend(p, Parse(rest))
  {
    var s := Spelling(p) + rest;
    if p.Field? {
      FieldParsesBack(p, rest);
      var inner := p.name + Middle(p) + (p.spec + ("}" + rest));
      FieldSpelling(p, rest);
      assert s[1..] == inner;
      assert inner[0] != '{' by {
        assert p.name != "" ==> inner[0] == (p.name + p.spec)[0];
      }
    } else if p.c == '{' || p.c == '}' {
      assert s[2..] == rest;
    } else {
      assert s[1..] == rest;
    }
  }

  /** The parser reads back every text of characters and fields that is written out. */
  lemma {:induction false} ParsesBack(parts: seq<Part>)
    requires forall k :: 0 <= k < |parts| ==> Spellable(parts[k])
    ensures Parse(Spelled(parts)) == Parts(parts)
  {
    if parts != [] {
      ParsesBack(parts[1..]);
      PartParsesBack(parts[0], Spelled(parts[1..]));
    }
  }

  // ---- Validation -------------------------------------------------------------------------------

  function Repeat(c: char, n: nat): (r: string)
    ensures |r| == n && forall k :: 0 <= k < n ==> r[k] == c
  {
    seq(n, k => c)
  }

  const FIELDS: set<string> :=
    {"plan", "duration", "duration_minutes", "days", "condition", "long_window_days", "min_limit", "short_limit", "long_limit"}

  const TITLE_LIMIT: nat := 255
  const DESCRIPTION_LIMIT: nat := 4000

  type Variables = map<string, string>

  /** The longest values the catalog generates. */
  function MaxValue(field: string): string {
    if field == "plan" then Repeat('P', 120)
    else if field == "duration" then "30 days 23 hours 30 minutes"
    else if field == "duration_minutes" then "43200"
    else if field == "days" then Repeat('9', 10)
    else if field == "condition" then Repeat('C', 64)
    else if field == "long_window_days" then "99"
    else "100%"
  }

  const MAX_VALUES: Variables := map field | field in FIELDS :: MaxValue(field)

  predicate Plain(p: Part) { p.Field? ==> p.name in FIELDS && p.spec == "" && p.conversion.None? }

  predicate AllPlain(parts: seq<Part>) { forall k :: 0 <= k < |parts| ==> Plain(parts[k]) }

  function Used(parts: seq<Part>): set<string> { set p | p in parts && p.Field? :: p.name }

  predicate Identifies(used: set<string>) {
    "plan" in used && "condition" in used && ("duration" in used || "days" in used)
  }

  /** Only known, bare fields; a title names the plan, the condition and the term. */
  predicate ValidContent(content: string, title: bool) {
    Parse(content).Parts? && AllPlain(Parse(content).parts) && (title ==> Identifies(Used(Parse(content).parts)))
  }

  ghost predicate Names(parts: seq<Part>, field: string) {
    exists k :: 0 <= k < |parts| && parts[k].Field? && parts[k].name == field
  }

  /** The rules of a content, field by field. */
  ghost predicate Allowed(parts: seq<Part>, title: bool) {
    && (forall k :: 0 <= k < |parts| && parts[k].Field? ==>
          && parts[k].spec == "" && parts[k].conversion == None
          && (parts[k].name == "plan" || parts[k].name == "condition" || parts[k].name == "long_window_days"
              || parts[k].name == "duration" || parts[k].name == "duration_minutes" || parts[k].name == "days"
              || parts[k].name == "min_limit" || parts[k].name == "short_limit" || parts[k].name == "long_limit"))
    && (title ==> Names(parts, "plan") && Names(parts, "condition") && (Names(parts, "duration") || Names(parts, "days")))
  }

  lemma UsedLaw(parts: seq<Part>)
    ensures forall field :: field in Used(parts) <==> Names(parts, field)
  {
    forall field
      ensures field in Used(parts) <==> Names(parts, field)
    {
      if Names(parts, field) {
        var k :| 0 <= k < |parts| && parts[k].Field? && parts[k].name == field;
        assert parts[k] in parts;
      }
    }
  }

  lemma AllowedLaw(content: string, title: bool)
    ensures ValidContent(content, title) <==> Parse(content).Parts? && Allowed(Parse(content).parts, title)
  {
    if Parse(content).Parts? {
      var parts := Parse(content).parts;
      UsedLaw(parts);
      if Allowed(parts, title) {
        assert forall k :: 0 <= k < |parts| ==> Plain(parts[k]);
      }
      if AllPlain(parts) {
        assert forall k :: 0 <= k < |parts| ==> Plain(parts[k]);
      }
    }
  }

  lemma UsedGrows(parts: seq<Part>, k: nat)
    requires k < |parts|
    ensures Used(parts[..k + 1]) == Used(parts[..k]) + (if parts[k].Field? then {parts[k].name} else {})
  {
    assert forall q :: q in parts[..k + 1] <==> q in parts[..k] || q == parts[k];
  }

  method ValidateContent(content: string, title: bool) returns (used: Option<set<string>>)
    ensures used.Some? <==> ValidContent(content, title)
    ensures used.Some? ==> used.value == Used(Parse(content).parts)
    ensures used.Some? <==> Parse(content).Parts? && Allowed(Parse(content).parts, title)
  {
    AllowedLaw(content, title);
    var parsed := Parse(content);
    if parsed.Malformed? {
      return None;
    }
    var fields: set<string> := {};
    for k := 0 to |parsed.parts|
      invariant forall i :: 0 <= i < k ==> Plain(parsed.parts[i])
      invariant fields == Used(parsed.parts[..k])
    {
      var p := parsed.parts[k];
      UsedGrows(parsed.parts, k);
      if p.Text? {
        continue;
      }
      if p.name !in FIELDS || p.conversion.Some? || p.spec != "" {
        assert !Plain(parsed.parts[k]);
        return None;
      }
      fields := fields + {p.name};
    }
    assert parsed.parts[..|parsed.parts|] == parsed.parts;
    assert AllPlain(parsed.parts) && fields == Used(parsed.parts);
    if title && !("plan" in fields && "condition" in fields) {
      return None;
    }
    if title && "duration" !in fields && "days" !in fields {
      return None;
    }
    used := Some(fields);
  }

  predicate Covers(vars: Variables, parts: seq<Part>) {
    forall k :: 0 <= k < |parts| && parts[k].Field? ==> parts[k].name in vars
  }

  function Value(p: Part, vars: Variables): string
    requires p.Field? ==> p.name in vars
  {
    if p.Text? then [p.c] else vars[p.name]
  }

  function Filled(parts: seq<Part>, vars: Variables): string
    requires Covers(vars, parts)
  {
    if parts == [] then "" else Value(parts[0], vars) + Filled(parts[1..], vars)
  }

  function Limit(title: bool): nat { if title then TITLE_LIMIT else DESCRIPTION_LIMIT }

  /** Accepted when it is saved: the maximal values do not overflow it. */
  predicate Accepted(content: string, title: bool) {
    && ValidContent(content, title)
    && Covers(MAX_VALUES, Parse(content).parts)   // every known field has a maximal value
    && |Filled(Parse(content).parts, MAX_VALUES)| <= Limit(title)
  }

  datatype Rendered = RenderError | Content(text: string)

  function Within(text: string, limit: nat): Rendered { if |text| > limit then RenderError else Content(text) }

  /** Rendering one content; the caller's checks come first. */
  function Render(content: string, title: bool, vars: Variables): Rendered {
    if !ValidContent(content, title) || !Covers(vars, Parse(content).parts) then RenderError
    else Within(Filled(Parse(content).parts, vars), Limit(title))
  }

  /** Filling in goes part by part, in order: a character stands for itself, a field for its value. */
  lemma {:induction false} FilledInOrder(parts: seq<Part>, more: seq<Part>, vars: Variables)
    requires Covers(vars, parts) && Covers(vars, more)
    ensures Covers(vars, parts + more) && Filled(parts + more, vars) == Filled(parts, vars) + Filled(more, vars)
  {
    if parts == [] {
      assert parts + more == more;
    } else {
      assert (parts + more)[1..] == parts[1..] + more;
      FilledInOrder(parts[1..], more, vars);
      assert forall k :: 0 <= k < |more| ==> (parts + more)[|parts| + k] == more[k];
    }
  }

  lemma FilledOne(c: char, field: string, spec: string, conversion: Option<char>, vars: Variables)
    ensures Filled([Text(c)], vars) == [c]
    ensures field in vars ==> Filled([Field(field, spec, conversion)], vars) == vars[field]
  {
  }

  /** The lengths that an accepted content is measured with. */
  lemma LimitsLaw(content: string, title: bool)
    ensures Accepted(content, title) <==>
              && Parse(content).Parts? && Allowed(Parse(content).parts, title)
              && |Filled(Parse(content).parts, MAX_VALUES)| <= if title then 255 else 4000
    ensures |MAX_VALUES["plan"]| == 120 && |MAX_VALUES["condition"]| == 64 && |MAX_VALUES["duration"]| == 27
    ensures |MAX_VALUES["duration_minutes"]| == 5 && |MAX_VALUES["days"]| == 10 && |MAX_VALUES["long_window_days"]| == 2
    ensures |MAX_VALUES["min_limit"]| == |MAX_VALUES["short_limit"]| == |MAX_VALUES["long_limit"]| == 4
  {
    AllowedLaw(content, title);
    if ValidContent(content, title) {
      assert forall k :: 0 <= k < |Parse(content).parts| ==> Plain(Parse(content).parts[k]);
    }
  }

  // ---- Monotonicity -----------------------------------------------------------------------------

  /** Every value that the parts take from `vars` is present in both and no longer than in `longer`. */
  predicate Below(parts: seq<Part>, vars: Variables, longer: Variables) {
    forall k :: 0 <= k < |parts| && parts[k].Field? ==>
      parts[k].name in vars && parts[k].name in longer && |vars[parts[k].name]| <= |longer[parts[k].name]|
  }

  predicate Fits(vars: Variables, parts: seq<Part>) { Below(parts, vars, MAX_VALUES) }

  lemma {:induction false} ShorterValuesShorterText(parts: seq<Part>, vars: Variables, longer: Variables)
    requires Below(parts, vars, longer)
    ensures Covers(vars, parts) && Covers(longer, parts)
    ensures |Filled(parts, vars)| <= |Filled(parts, longer)|
  {
    if parts != [] {
      ShorterValuesShorterText(parts[1..], vars, longer);
    }
  }

  /** A content accepted against the maximal values renders for all values that are no longer. */
  lemma AcceptedRenders(content: string, title: bool, vars: Variables)
    requires Accepted(content, title) && Fits(vars, Parse(content).parts)
    ensures Render(content, title, vars).Content?
  {
    ShorterValuesShorterText(Parse(content).parts, vars, MAX_VALUES);
  }

  // ---- Durations --------------------------------------------------------------------------------

  datatype Lang = Ru | En

  const DAY_MINUTES: nat := 24 * 60

  function Digits(n: nat): (r: string)
    ensures |r| > 0 && forall k :: 0 <= k < |r| ==> '0' <= r[k] <= '9'
  {
    if n < 10 then [('0' as int + n) as char] else Digits(n / 10) + Digits(n % 10)
  }

  function Unit(n: nat, one: string, many: string): string { Digits(n) + " " + (if n == 1 then one else many) }

  function Joined(parts: seq<string>): string {
    if parts == [] then "" else if |parts| == 1 then parts[0] else parts[0] + " " + Joined(parts[1..])
  }

  function Optional(n: nat, one: string, many: string): seq<string> { if n == 0 then [] else [Unit(n, one, many)] }

  /** The nonzero components, largest first. */
  function Components(minutes: nat, lang: Lang): seq<string> {
    var days, hours, rest := minutes / DAY_MINUTES, minutes % DAY_MINUTES / 60, minutes % 60;
    if lang.En? then Optional(days, "day", "days") + Optional(hours, "hour", "hours") + Optional(rest, "minute", "minutes")
    else Optional(days, "д.", "д.") + Optional(hours, "ч.", "ч.") + Optional(rest, "мин.", "мин.")
  }

  function FormatDuration(minutes: int, lang: Lang): string {
    if minutes <= 0 then "—" else Joined(Components(minutes, lang))
  }

  function Padded(n: nat, width: nat): string {
    if |Digits(n)| >= width then Digits(n) else Repeat('0', width - |Digits(n)|) + Digits(n)
  }

  function Stripped(s: string, c: char): string {
    if s != "" && s[|s| - 1] == c then Stripped(s[..|s| - 1], c) else s
  }

  const TEN_PLACES: nat := 10_000_000_000

  /** Days to ten places, half up, without trailing zeros and point. */
  function LegacyDays(minutes: nat): string {
    var scaled := Scaled(minutes);
    Stripped(Stripped(Digits(scaled / TEN_PLACES) + "." + Padded(scaled % TEN_PLACES, 10), '0'), '.')
  }

  /** The number that decimal digits stand for. */
  ghost function Number(s: string): int {
    if s == "" then 0 else 10 * Number(s[..|s| - 1]) + (s[|s| - 1] as int - '0' as int)
  }

  lemma {:induction false} DigitsReadBack(n: nat)
    ensures Number(Digits(n)) == n && (n > 0 ==> Digits(n)[0] != '0')
  {
    if n >= 10 {
      DigitsReadBack(n / 10);
      assert Digits(n)[..|Digits(n)| - 1] == Digits(n / 10);
    } else {
      assert Digits(n)[..0] == "";
    }
  }

  /** Several parts are joined with one space between each two. */
  lemma {:induction false} JoinedInOrder(a: seq<string>, b: seq<string>)
    requires a != [] && b != []
    ensures Joined(a + b) == Joined(a) + " " + Joined(b)
    ensures forall part :: Joined([part]) == part
  {
    if |a| == 1 {
      assert (a + b)[1..] == b;
    } else {
      assert (a + b)[1..] == a[1..] + b;
      JoinedInOrder(a[1..], b);
    }
  }

  ghost function Counted(n: nat, unit: string, lang: Lang): string {
    Digits(n) + " " + unit + (if lang == En && n != 1 then "s" else "")
  }

  /** A duration is written as its days, hours and minutes, those that are zero left out. */
  lemma DurationReads(days: nat, hours: nat, rest: nat, lang: Lang)
    requires hours < 24 && rest < 60
    ensures var minutes := days * 1440 + hours * 60 + rest;
            var d := if days == 0 then [] else [Counted(days, if lang == En then "day" else "д.", lang)];
            var h := if hours == 0 then [] else [Counted(hours, if lang == En then "hour" else "ч.", lang)];
            var m := if rest == 0 then [] else [Counted(rest, if lang == En then "minute" else "мин.", lang)];
            FormatDuration(minutes, lang) == if minutes == 0 then "—" else Joined(d + h + m)
  {
    var minutes := days * 1440 + hours * 60 + rest;
    assert minutes / DAY_MINUTES == days && minutes % DAY_MINUTES / 60 == hours && minutes % 60 == rest;
    if lang == En {
      UnitReads(days, "day", "days", lang);
      UnitReads(hours, "hour", "hours", lang);
      UnitReads(rest, "minute", "minutes", lang);
    } else {
      UnitReads(days, "д.", "д.", lang);
      UnitReads(hours, "ч.", "ч.", lang);
      UnitReads(rest, "мин.", "мин.", lang);
    }
  }

  lemma UnitReads(n: nat, one: string, many: string, lang: Lang)
    requires many == one + if lang == En then "s" else ""
    ensures Optional(n, one, many) == if n == 0 then [] else [Counted(n, one, lang)]
  {
    assert one + "" == one;
    assert Digits(n) + " " + (one + "s") == Digits(n) + " " + one + "s";
    assert Digits(n) + " " + one + "" == Digits(n) + " " + one;
  }

  lemma DigitsLength(n: nat)
    ensures n < 10 ==> |Digits(n)| == 1
    ensures 10 <= n < 100 ==> |Digits(n)| == 2
    ensures n < 1000 ==> |Digits(n)| <= 3
    ensures n < 100000 ==> |Digits(n)| <= 5
  {
    if n >= 10 {
      DigitsLength(n / 10);
      DigitsLength(n % 10);
    }
  }

  /** Length with one separator after each part. */
  function Total(parts: seq<string>): nat { if parts == [] then 0 else |parts[0]| + 1 + Total(parts[1..]) }

  lemma {:induction false} JoinedLength(parts: seq<string>)
    ensures parts != [] ==> |Joined(parts)| + 1 == Total(parts)
  {
    if |parts| > 1 {
      JoinedLength(parts[1..]);
    }
  }

  lemma {:induction false} TotalOfBoth(a: seq<string>, b: seq<string>)
    ensures Total(a + b) == Total(a) + Total(b)
  {
    if a == [] {
      assert a + b == b;
    } else {
      assert (a + b)[1..] == a[1..] + b;
      TotalOfBoth(a[1..], b);
    }
  }

  lemma UnitLength(n: nat, one: string, many: string)
    requires n < 100 && |one| <= |many|
    ensures |Unit(n, one, many)| <= 3 + |many|
  {
    DigitsLength(n);
  }

  lemma OptionalTotal(n: nat, one: string, many: string)
    requires n < 100 && |one| <= |many|
    ensures Total(Optional(n, one, many)) <= 4 + |many|
  {
    UnitLength(n, one, many);
  }

  lemma DurationTotal(minutes: nat, lang: Lang)
    requires 0 < minutes <= 30 * DAY_MINUTES
    ensures Total(Components(minutes, lang)) <= if lang.En? then 28 else 20
    ensures Components(minutes, lang) != []
  {
    var days, hours, rest := minutes / DAY_MINUTES, minutes % DAY_MINUTES / 60, minutes % 60;
    OptionalTotal(days, "day", "days");
    OptionalTotal(hours, "hour", "hours");
    OptionalTotal(rest, "minute", "minutes");
    OptionalTotal(days, "д.", "д.");
    OptionalTotal(hours, "ч.", "ч.");
    OptionalTotal(rest, "мин.", "мин.");
    var first := if lang.En? then Optional(days, "day", "days") else Optional(days, "д.", "д.");
    var second := if lang.En? then Optional(hours, "hour", "hours") else Optional(hours, "ч.", "ч.");
    var third := if lang.En? then Optional(rest, "minute", "minutes") else Optional(rest, "мин.", "мин.");
    assert Components(minutes, lang) == first + second + third;
    TotalOfBoth(first + second, third);
    TotalOfBoth(first, second);
  }

  /** No duration of the catalog is written longer than the maximal value, nor than 19 characters in Russian. */
  lemma DurationFits(minutes: nat, lang: Lang)
    requires 0 < minutes <= 30 * DAY_MINUTES
    ensures |FormatDuration(minutes, lang)| <= if lang.En? then |MaxValue("duration")| else 19
  {
    DurationTotal(minutes, lang);
    JoinedLength(Components(minutes, lang));
  }

  // ---- Whole days -------------------------------------------------------------------------------

  lemma {:induction false} StripsRun(s: string, c: char, n: nat)
    ensures Stripped(s + Repeat(c, n), c) == Stripped(s, c)
  {
    if n == 0 {
      assert s + Repeat(c, n) == s;
    } else {
      var t := s + Repeat(c, n);
      assert t[..|t| - 1] == s + Repeat(c, n - 1);
      StripsRun(s, c, n - 1);
    }
  }

  function Scaled(minutes: nat): nat { (2 * minutes * TEN_PLACES + DAY_MINUTES) / (2 * DAY_MINUTES) }

  lemma ScaledWholeDays(days: nat)
    ensures Scaled(days * DAY_MINUTES) / TEN_PLACES == days && Scaled(days * DAY_MINUTES) % TEN_PLACES == 0
  {
  }

  lemma StrippedZeros(days: nat)
    ensures Stripped(Stripped(Digits(days) + "." + Padded(0, 10), '0'), '.') == Digits(days)
  {
    var dotted := Digits(days) + ".";
    assert Padded(0, 10) == Repeat('0', 10);
    StripsRun(dotted, '0', 10);
    assert Stripped(dotted, '0') == dotted;
    assert dotted[..|dotted| - 1] == Digits(days);
  }

  /** For whole days the deprecated value is just their number. */
  lemma LegacyWholeDays(days: nat)
    ensures LegacyDays(days * DAY_MINUTES) == Digits(days)
  {
    ScaledWholeDays(days);
    StrippedZeros(days);
  }

  /** Stripping removes a run of the character, and all of it. */
  lemma {:induction false} StrippedExactly(s: string, c: char)
    ensures var t := Stripped(s, c); |t| <= |s| && s == t + Repeat(c, |s| - |t|) && (t != "" ==> t[|t| - 1] != c)
  {
    if s != "" && s[|s| - 1] == c {
      StrippedExactly(s[..|s| - 1], c);
      var t := Stripped(s, c);
      assert s == s[..|s| - 1] + [c];
      assert Repeat(c, |s| - |t|) == Repeat(c, |s| - 1 - |t|) + [c];
    } else {
      assert s + Repeat(c, 0) == s;
    }
  }

  lemma ScaledIsNearest(minutes: nat)
    ensures 2 * minutes * 10_000_000_000 - 1440 < 2 * 1440 * Scaled(minutes) <= 2 * minutes * 10_000_000_000 + 1440
  {
  }

  /** `text` is `full` without its trailing zeros, and does not end in the point. */
  ghost predicate WithoutZeros(full: string, text: string) {
    && text != "" && text[|text| - 1] != '0' && text[|text| - 1] != '.'
    && |text| <= |full| && full == text + Repeat('0', |full| - |text|)
  }

  lemma FractionStripped(head: string, fraction: string, k: nat)
    requires k < |fraction| && fraction[k] != '0' && forall j :: 0 <= j < |fraction| ==> fraction[j] != '.'
    ensures WithoutZeros(head + fraction, Stripped(Stripped(head + fraction, '0'), '.'))
  {
    var full := head + fraction;
    var text := Stripped(full, '0');
    StrippedExactly(full, '0');
    assert full[|head| + k] == fraction[k];
    assert forall j :: |text| <= j < |full| ==> full[j] == '0';
    assert text[|text| - 1] == full[|text| - 1] == fraction[|text| - 1 - |head|];
    assert Stripped(text, '.') == text;
  }

  /** The deprecated value is the number of days, rounded half up to ten places: the decimal digits without the
      zeros at the end of the fraction, and without the point if nothing of the fraction is left. */
  lemma LegacyDaysRead(minutes: nat)
    ensures 2 * minutes * 10_000_000_000 - 1440 < 2 * 1440 * Scaled(minutes) <= 2 * minutes * 10_000_000_000 + 1440
    ensures var whole, places := Scaled(minutes) / 10_000_000_000, Scaled(minutes) % 10_000_000_000;
            if places == 0 then LegacyDays(minutes) == Digits(whole)
            else WithoutZeros(Digits(whole) + "." + Padded(places, 10), LegacyDays(minutes))
  {
    ScaledIsNearest(minutes);
    var whole, places := Scaled(minutes) / TEN_PLACES, Scaled(minutes) % TEN_PLACES;
    if places == 0 {
      StrippedZeros(whole);
    } else {
      NotAllZeros(places);
      var k :| 0 <= k < |Padded(places, 10)| && Padded(places, 10)[k] != '0';
      FractionStripped(Digits(whole) + ".", Padded(places, 10), k);
    }
  }

  lemma NotAllZeros(n: nat)
    requires n > 0
    ensures exists k :: 0 <= k < |Padded(n, 10)| && Padded(n, 10)[k] != '0'
  {
    DigitsReadBack(n);
    assert Padded(n, 10)[|Padded(n, 10)| - |Digits(n)|] == Digits(n)[0];
  }

  function Pow10(k: nat): nat { if k == 0 then 1 else 10 * Pow10(k - 1) }

  lemma {:induction false} DigitsWidth(n: nat, k: nat)
    requires 0 < k && Pow10(k - 1) <= n < Pow10(k)
    ensures |Digits(n)| == k && Digits(n)[k - 1] == ('0' as int + n % 10) as char
  {
    if k > 1 {
      DigitsWidth(n / 10, k - 1);
    }
  }

  lemma Powers()
    ensures Pow10(8) == 100_000_000 && Pow10(9) == 1_000_000_000 && Pow10(10) == TEN_PLACES
  {
    assert Pow10(4) == 10_000;
    assert Pow10(8) == 10_000 * Pow10(4);
  }

  lemma {:induction false} DigitsAtMost(n: nat, k: nat)
    requires 0 < k && n < Pow10(k)
    ensures |Digits(n)| <= k
  {
    if n >= 10 {
      DigitsAtMost(n / 10, k - 1);
    }
  }

  /** Ten places are padded to ten characters. */
  lemma PaddedWidth(n: nat)
    requires n < TEN_PLACES
    ensures |Padded(n, 10)| == 10
    ensures n >= 100_000_000 ==> Padded(n, 10)[9] == ('0' as int + n % 10) as char
  {
    Powers();
    DigitsAtMost(n, 10);
    if n >= 1_000_000_000 {
      DigitsWidth(n, 10);
    } else if n >= 100_000_000 {
      DigitsWidth(n, 9);
    }
  }

  lemma {:induction false} StrippedShorter(s: string, c: char)
    ensures |Stripped(s, c)| <= |s|
  {
    if s != "" {
      StrippedShorter(s[..|s| - 1], c);
    }
  }

  /** A fraction whose last place is not zero is written in full. */
  lemma NothingToStrip(whole: nat, n: nat)
    requires whole < 100 && 100_000_000 <= n < TEN_PLACES && n % 10 != 0
    ensures |Stripped(Stripped(Digits(whole) + "." + Padded(n, 10), '0'), '.')| == |Digits(whole)| + 11
  {
    PaddedWidth(n);
    var text := Digits(whole) + "." + Padded(n, 10);
    assert |text| == |Digits(whole)| + 11 && text[|text| - 1] == Padded(n, 10)[9];
    assert Stripped(text, '0') == text && Stripped(text, '.') == text;
  }

  /** The deprecated value of a duration below a hundred days has at most thirteen characters. */
  lemma LegacyAtMost(minutes: nat)
    requires minutes <= 30 * DAY_MINUTES
    ensures |LegacyDays(minutes)| <= 13
  {
    var scaled := Scaled(minutes);
    assert scaled / TEN_PLACES < 100;
    DigitsLength(scaled / TEN_PLACES);
    PaddedWidth(scaled % TEN_PLACES);
    var text := Digits(scaled / TEN_PLACES) + "." + Padded(scaled % TEN_PLACES, 10);
    StrippedShorter(text, '0');
    StrippedShorter(Stripped(text, '0'), '.');
  }

  /** The longest duration with a part of a day: every value of it has the greatest length there is. */
  const LONGEST_MINUTES: nat := 30 * DAY_MINUTES - 30

  /** 29.9791666667 */
  lemma LegacyLongest()
    ensures |LegacyDays(LONGEST_MINUTES)| == 13
  {
    var scaled := Scaled(LONGEST_MINUTES);
    assert scaled == 299_791_666_667;
    assert scaled / TEN_PLACES == 29 && scaled % TEN_PLACES == 9_791_666_667;
    NothingToStrip(29, 9_791_666_667);
    DigitsLength(29);
  }

  lemma DurationLongest(lang: Lang)
    ensures |FormatDuration(LONGEST_MINUTES, lang)| == if lang.En? then 27 else 19
  {
    assert LONGEST_MINUTES / DAY_MINUTES == 29 && LONGEST_MINUTES % DAY_MINUTES / 60 == 23 && LONGEST_MINUTES % 60 == 30;
    DigitsLength(29);
    DigitsLength(23);
    DigitsLength(30);
    var parts := if lang.En? then [Unit(29, "day", "days"), Unit(23, "hour", "hours"), Unit(30, "minute", "minutes")]
                 else [Unit(29, "д.", "д."), Unit(23, "ч.", "ч."), Unit(30, "мин.", "мин.")];
    assert Components(LONGEST_MINUTES, lang) == parts;
    JoinedLength(parts);
    assert Total(parts) == |parts[0]| + 1 + Total(parts[1..]);
    assert Total(parts[1..]) == |parts[1]| + 1 + Total(parts[1..][1..]);
    assert parts[1..][1..] == [parts[2]];
  }

  /** For half an hour it has twelve characters; the maximal value has ten. */
  lemma LegacyHalfHour(minutes: nat)
    requires minutes == 30
    ensures |LegacyDays(minutes)| == 12
  {
    var scaled := Scaled(minutes);
    assert scaled == 208_333_333;
    assert scaled / TEN_PLACES == 0 && scaled % TEN_PLACES == scaled;
    NothingToStrip(scaled / TEN_PLACES, scaled % TEN_PLACES);
    DigitsLength(scaled / TEN_PLACES);
  }

  // ---- What the catalog substitutes -------------------------------------------------------------

  datatype Scope = AnyScope | CodexScope

  datatype Catalog = Catalog(plan: string, minutes: nat, free: bool, scope: Scope, minPct: Option<nat>, longPct: Option<nat>)

  predicate Legal(c: Catalog) {
    && |c.plan| <= 120 && 30 <= c.minutes <= 30 * DAY_MINUTES && c.minutes % 30 == 0
    && (c.minPct.Some? ==> c.minPct.value <= 100) && (c.longPct.Some? ==> c.longPct.value <= 100)
  }

  function Percent(p: Option<nat>): string { if p.None? then "—" else Digits(p.value) + "%" }

  function Condition(c: Catalog, lang: Lang): string {
    if c.scope.CodexScope? && c.minPct.Some? then "Codex ≥ " + Percent(c.minPct)
    else if c.scope.AnyScope? && c.longPct.Some? then "Codex ≤ " + Percent(c.longPct)
    else if lang.Ru? then "без гарантии"
    else "no limit guarantee"
  }

  function Substitution(c: Catalog, lang: Lang, field: string): string {
    if field == "plan" then c.plan
    else if field == "duration" then FormatDuration(c.minutes, lang)
    else if field == "duration_minutes" then Digits(c.minutes)
    else if field == "days" then LegacyDays(c.minutes)
    else if field == "condition" then Condition(c, lang)
    else if field == "long_window_days" then (if c.free then "30" else "7")
    else if field == "min_limit" then Percent(c.minPct)
    else if field == "short_limit" then "—"
    else Percent(c.longPct)
  }

  function Substitutions(c: Catalog, lang: Lang): Variables { map field | field in FIELDS :: Substitution(c, lang, field) }

  datatype Template = Template(titleRu: string, titleEn: string, descriptionRu: string, descriptionEn: string)

  /** The two titles, then the two descriptions. */
  function Contents(t: Template): (r: seq<string>)
    ensures |r| == 4
  {
    [t.titleRu, t.titleEn, t.descriptionRu, t.descriptionEn]
  }

  predicate AcceptedTemplate(t: Template) { forall k :: 0 <= k < 4 ==> Accepted(Contents(t)[k], k < 2) }

  predicate OccursAt(s: string, sub: string, i: nat) { i + |sub| <= |s| && s[i..i + |sub|] == sub }

  predicate Contains(s: string, sub: string) { exists i: nat :: i <= |s| && OccursAt(s, sub, i) }

  predicate Mentions(t: Template, sub: string) { exists k :: 0 <= k < 4 && Contains(Contents(t)[k], sub) }

  /** The operator's templates may not write part of a day as days. */
  predicate Guarded(t: Template, minutes: nat) { minutes % DAY_MINUTES != 0 && Mentions(t, "{days}") }

  /** The four texts of an offer, or None for a render error; `bundled` is used when no template applies. */
  function RenderContents(t: Option<Template>, bundled: Template, c: Catalog): Option<Template> {
    if t.Some? && Guarded(t.value, c.minutes) then None
    else
      var used := if t.Some? then t.value else bundled;
      var titleRu := Render(used.titleRu, true, Substitutions(c, Ru));
      var titleEn := Render(used.titleEn, true, Substitutions(c, En));
      var descriptionRu := Render(used.descriptionRu, false, Substitutions(c, Ru));
      var descriptionEn := Render(used.descriptionEn, false, Substitutions(c, En));
      if titleRu.Content? && titleEn.Content? && descriptionRu.Content? && descriptionEn.Content?
      then Some(Template(titleRu.text, titleEn.text, descriptionRu.text, descriptionEn.text))
      else None
  }

  /** The values, field by field. */
  lemma SubstitutionTable(c: Catalog, lang: Lang)
    ensures var values := Substitutions(c, lang);
            && values.Keys == {"plan", "duration", "duration_minutes", "days", "condition", "long_window_days", "min_limit",
                               "short_limit", "long_limit"}
            && values["plan"] == c.plan
            && values["duration"] == FormatDuration(c.minutes, lang)
            && values["duration_minutes"] == Digits(c.minutes)
            && values["days"] == LegacyDays(c.minutes)
            && values["long_window_days"] == (if c.free then "30" else "7")
            && values["min_limit"] == (match c.minPct case None => "—" case Some(p) => Digits(p) + "%")
            && values["long_limit"] == (match c.longPct case None => "—" case Some(p) => Digits(p) + "%")
            && values["short_limit"] == "—"
            && values["condition"] ==
               if c.scope == CodexScope && c.minPct.Some? then "Codex ≥ " + (Digits(c.minPct.value) + "%")
               else if c.scope == AnyScope && c.longPct.Some? then "Codex ≤ " + (Digits(c.longPct.value) + "%")
               else if lang == Ru then "без гарантии" else "no limit guarantee"
  {
  }

  /** `out` is the content filled in with the values of one language, within its length. */
  ghost predicate Shows(content: string, title: bool, c: Catalog, lang: Lang, out: string) {
    && Parse(content).Parts? && Allowed(Parse(content).parts, title)
    && Covers(Substitutions(c, lang), Parse(content).parts)
    && out == Filled(Parse(content).parts, Substitutions(c, lang)) && |out| <= if title then 255 else 4000
  }

  lemma RenderLaw(content: string, title: bool, c: Catalog, lang: Lang, out: string)
    ensures Render(content, title, Substitutions(c, lang)) == Content(out) <==> Shows(content, title, c, lang, out)
  {
    AllowedLaw(content, title);
  }

  /** The offer shows the four texts of the operator's template, or of the bundled one if none applies, each in its
      own field and language; there is none exactly if the operator's template writes part of a day as days or
      one of the four does not render. */
  lemma OfferShows(t: Option<Template>, bundled: Template, c: Catalog, out: Template)
    ensures RenderContents(t, bundled, c) == Some(out) <==>
              var used := if t.Some? then t.value else bundled;
              && (t.Some? && c.minutes % 1440 != 0 ==>
                    !Contains(used.titleRu, "{days}") && !Contains(used.titleEn, "{days}")
                    && !Contains(used.descriptionRu, "{days}") && !Contains(used.descriptionEn, "{days}"))
              && Shows(used.titleRu, true, c, Ru, out.titleRu) && Shows(used.titleEn, true, c, En, out.titleEn)
              && Shows(used.descriptionRu, false, c, Ru, out.descriptionRu)
              && Shows(used.descriptionEn, false, c, En, out.descriptionEn)
  {
    var used := if t.Some? then t.value else bundled;
    RenderLaw(used.titleRu, true, c, Ru, out.titleRu);
    RenderLaw(used.titleEn, true, c, En, out.titleEn);
    RenderLaw(used.descriptionRu, false, c, Ru, out.descriptionRu);
    RenderLaw(used.descriptionEn, false, c, En, out.descriptionEn);
    MentionsLaw(used, "{days}");
  }

  lemma MentionsLaw(t: Template, sub: string)
    ensures Mentions(t, sub) <==>
              Contains(t.titleRu, sub) || Contains(t.titleEn, sub) || Contains(t.descriptionRu, sub) || Contains(t.descriptionEn, sub)
  {
    assert Contents(t)[0] == t.titleRu && Contents(t)[1] == t.titleEn;
    assert Contents(t)[2] == t.descriptionRu && Contents(t)[3] == t.descriptionEn;
  }

  lemma PercentFits(p: Option<nat>)
    requires p.Some? ==> p.value <= 100
    ensures |Percent(p)| <= 4
  {
    if p.Some? {
      DigitsLength(p.value);
    }
  }

  lemma ConditionFits(c: Catalog, lang: Lang)
    requires Legal(c)
    ensures |Condition(c, lang)| <= 18
  {
    PercentFits(c.minPct);
    PercentFits(c.longPct);
  }

  lemma DaysFit(minutes: nat, days: nat)
    requires minutes == days * DAY_MINUTES && days < 100
    ensures |LegacyDays(minutes)| <= 2
  {
    LegacyWholeDays(days);
    DigitsLength(days);
  }

  lemma ValueFits(c: Catalog, lang: Lang, field: string)
    requires Legal(c) && (field == "days" ==> c.minutes % DAY_MINUTES == 0)
    ensures |Substitution(c, lang, field)| <= |MaxValue(field)|
  {
    if field == "plan" {
    } else if field == "duration" {
      DurationFits(c.minutes, lang);
    } else if field == "duration_minutes" {
      DigitsLength(c.minutes);
    } else if field == "days" {
      DaysFit(c.minutes, c.minutes / DAY_MINUTES);
    } else if field == "condition" {
      ConditionFits(c, lang);
    } else {
      PercentFits(c.minPct);
      PercentFits(c.longPct);
    }
  }

  // ---- What the guard sees ----------------------------------------------------------------------

  predicate UsesDays(parts: seq<Part>) { exists k :: 0 <= k < |parts| && parts[k].Field? && parts[k].name == "days" }

  lemma ContainsLater(s: string, n: nat, sub: string)
    requires n <= |s| && Contains(s[n..], sub)
    ensures Contains(s, sub)
  {
    var i: nat :| i <= |s[n..]| && OccursAt(s[n..], sub, i);
    assert s[n + i..n + i + |sub|] == s[n..][i..i + |sub|];
    assert OccursAt(s, sub, n + i);
  }

  /** A bare days field is written in one of two ways. */
  lemma DaysField(s: string)
    requires s != "" && s[0] == '{' && ParseField(s[1..]).Some?
    requires ParseField(s[1..]).value.0 == Field("days", "", None)
    ensures Contains(s, "{days}") || Contains(s, "{days:}")
  {
    var n := NameEnd(s[1..], 0).value;
    assert n == 4 && s[1..][..4] == "days";
    if s[1..][4] == '}' {
      assert s[0..6] == "{days}";
      assert OccursAt(s, "{days}", 0);
    } else {
      assert s[1..][5] == '}';
      assert s[0..7] == "{days:}";
      assert OccursAt(s, "{days:}", 0);
    }
  }

  /** Where the first part of a parsed string ends. */
  function FirstEnd(s: string): nat
    requires s != "" && Parse(s).Parts?
  {
    if s[0] == '}' then 2
    else if s[0] != '{' then 1
    else if s[1] == '{' then 2
    else |s| - |ParseField(s[1..]).value.1|
  }

  lemma {:induction false} GuardSees(s: string)
    requires Parse(s).Parts? && AllPlain(Parse(s).parts) && UsesDays(Parse(s).parts)
    ensures Contains(s, "{days}") || Contains(s, "{days:}")
    decreases |s|
  {
    var parts := Parse(s).parts;
    if parts[0].Field? && parts[0].name == "days" {
      assert Plain(parts[0]);
      DaysField(s);
    } else {
      Rest(s);
      var n := FirstEnd(s);
      assert forall k :: 0 <= k < |parts[1..]| ==> parts[1..][k] == parts[k + 1];
      GuardSees(s[n..]);
      if Contains(s[n..], "{days}") {
        ContainsLater(s, n, "{days}");
      } else {
        ContainsLater(s, n, "{days:}");
      }
    }
  }

  lemma Rest(s: string)
    requires s != "" && Parse(s).Parts?
    ensures 0 < FirstEnd(s) <= |s| && Parse(s[FirstEnd(s)..]).Parts? && Parse(s).parts[1..] == Parse(s[FirstEnd(s)..]).parts
  {
    if s[0] == '{' && s[1] != '{' {
      FieldIsPrefix(s[1..]);
      var field := ParseField(s[1..]);
      assert s[FirstEnd(s)..] == field.value.1;
      assert Parse(s) == Prepend(field.value.0, Parse(field.value.1));
    } else if s[0] == '}' || s[0] == '{' {
      assert Parse(s) == Prepend(Text(s[0]), Parse(s[2..]));
    } else {
      assert Parse(s) == Prepend(Text(s[0]), Parse(s[1..]));
    }
  }

  lemma FieldIsPrefix(s: string)
    requires ParseField(s).Some?
    ensures var rest := ParseField(s).value.1; |rest| <= |s| && rest == s[|s| - |rest|..]
  {
  }

  // ---- Acceptance is enough ---------------------------------------------------------------------

  lemma AcceptedContentRenders(content: string, title: bool, c: Catalog, lang: Lang)
    requires Accepted(content, title) && Legal(c)
    requires c.minutes % DAY_MINUTES == 0 || (!Contains(content, "{days}") && !Contains(content, "{days:}"))
    ensures Render(content, title, Substitutions(c, lang)).Content?
  {
    var parts := Parse(content).parts;
    if UsesDays(parts) {
      GuardSees(content);
    }
    forall k | 0 <= k < |parts| && parts[k].Field?
      ensures parts[k].name in FIELDS && |Substitutions(c, lang)[parts[k].name]| <= |MAX_VALUES[parts[k].name]|
    {
      assert Plain(parts[k]);
      ValueFits(c, lang, parts[k].name);
    }
    AcceptedRenders(content, title, Substitutions(c, lang));
  }

  lemma TemplateRenders(t: Template, c: Catalog)
    requires Legal(c) && AcceptedTemplate(t)
    requires c.minutes % DAY_MINUTES == 0 || (!Mentions(t, "{days}") && !Mentions(t, "{days:}"))
    ensures forall k, lang :: 0 <= k < 4 ==> Render(Contents(t)[k], k < 2, Substitutions(c, lang)).Content?
  {
    forall k, lang | 0 <= k < 4
      ensures Render(Contents(t)[k], k < 2, Substitutions(c, lang)).Content?
    {
      AcceptedContentRenders(Contents(t)[k], k < 2, c, lang);
    }
  }

  /** For every plan name, every duration and every percentage of the catalog, a template that was accepted
      renders within the limits or is refused by the guard on parts of a day, provided that it does not
      spell the deprecated field with an empty format specification, which the guard does not see. */
  lemma AcceptedIsEnough(t: Option<Template>, bundled: Template, c: Catalog)
    requires Legal(c) && AcceptedTemplate(bundled) && (t.Some? ==> AcceptedTemplate(t.value))
    requires t.None? ==> !Mentions(bundled, "{days}")
    requires c.minutes % DAY_MINUTES == 0 || !Mentions(if t.Some? then t.value else bundled, "{days:}")
    ensures RenderContents(t, bundled, c).None? <==> t.Some? && Guarded(t.value, c.minutes)
  {
    if !(t.Some? && Guarded(t.value, c.minutes)) {
      var used := if t.Some? then t.value else bundled;
      TemplateRenders(used, c);
      assert Contents(used)[0] == used.titleRu && Contents(used)[1] == used.titleEn;
      assert Contents(used)[2] == used.descriptionRu && Contents(used)[3] == used.descriptionEn;
    }
  }

  // ---- The exact condition ----------------------------------------------------------------------

  /** Three catalog rows whose values are as long as any: the condition, the minimum and the ceiling cannot all be
      longest at once. */
  function Longest(k: nat): Catalog {
    var plan := Repeat('P', 120);
    if k == 0 then Catalog(plan, LONGEST_MINUTES, true, AnyScope, Some(100), None)
    else if k == 1 then Catalog(plan, LONGEST_MINUTES, true, CodexScope, None, Some(100))
    else Catalog(plan, LONGEST_MINUTES, true, CodexScope, Some(100), Some(100))
  }

  lemma LongestIsLegal(k: nat)
    ensures Legal(Longest(k)) && Longest(k).minutes % DAY_MINUTES != 0
  {
  }

  /** The row that has no shorter value than `c`. */
  function Above(c: Catalog): nat {
    if c.scope.AnyScope? && c.longPct.None? then 0
    else if c.scope.CodexScope? && c.minPct.None? then 1
    else 2
  }

  lemma PercentLongest()
    ensures |Percent(Some(100))| == 4
  {
    assert Pow10(2) == 100 && Pow10(3) == 1000;
    DigitsWidth(100, 3);
  }

  lemma ConditionBelow(c: Catalog, lang: Lang)
    requires Legal(c)
    ensures |Condition(c, lang)| <= |Condition(Longest(Above(c)), lang)|
  {
    PercentFits(c.minPct);
    PercentFits(c.longPct);
    PercentLongest();
  }

  lemma ValueBelow(c: Catalog, lang: Lang, field: string)
    requires Legal(c)
    ensures |Substitution(c, lang, field)| <= |Substitution(Longest(Above(c)), lang, field)|
  {
    if field == "plan" {
    } else if field == "duration" {
      DurationFits(c.minutes, lang);
      DurationLongest(lang);
    } else if field == "duration_minutes" {
      DigitsLength(c.minutes);
      assert Pow10(4) == 10_000 && Pow10(5) == 100_000;
      DigitsWidth(LONGEST_MINUTES, 5);
    } else if field == "days" {
      LegacyAtMost(c.minutes);
      LegacyLongest();
    } else if field == "condition" {
      ConditionBelow(c, lang);
    } else {
      PercentFits(c.minPct);
      PercentFits(c.longPct);
      PercentLongest();
    }
  }

  /** What a caller can check on saving: the content renders for the three longest rows. */
  predicate FitsLongest(content: string, title: bool, lang: Lang) {
    forall k :: 0 <= k < 3 ==> Render(content, title, Substitutions(Longest(k), lang)).Content?
  }

  lemma LongestRenders(content: string, title: bool, c: Catalog, lang: Lang)
    requires Legal(c) && ValidContent(content, title) && FitsLongest(content, title, lang)
    ensures Render(content, title, Substitutions(c, lang)).Content?
  {
    var parts, longest := Parse(content).parts, Substitutions(Longest(Above(c)), lang);
    forall k | 0 <= k < |parts| && parts[k].Field?
      ensures parts[k].name in FIELDS && |Substitutions(c, lang)[parts[k].name]| <= |longest[parts[k].name]|
    {
      assert Plain(parts[k]);
      ValueBelow(c, lang, parts[k].name);
    }
    ShorterValuesShorterText(parts, Substitutions(c, lang), longest);
  }

  /** A content renders for every catalog row exactly when it renders for the three longest ones. */
  lemma RendersExactly(content: string, title: bool, lang: Lang)
    requires ValidContent(content, title)
    ensures (forall c :: Legal(c) ==> Render(content, title, Substitutions(c, lang)).Content?) <==> FitsLongest(content, title, lang)
  {
    if FitsLongest(content, title, lang) {
      forall c | Legal(c)
        ensures Render(content, title, Substitutions(c, lang)).Content?
      {
        LongestRenders(content, title, c, lang);
      }
    } else {
      var k :| 0 <= k < 3 && !Render(content, title, Substitutions(Longest(k), lang)).Content?;
      LongestIsLegal(k);
    }
  }

  function LangOf(k: nat): Lang { if k % 2 == 0 then Ru else En }

  predicate TemplateFitsLongest(t: Template) {
    forall k :: 0 <= k < 4 ==> FitsLongest(Contents(t)[k], k < 2, LangOf(k))
  }

  predicate RendersUnlessGuarded(t: Template, bundled: Template, c: Catalog) {
    RenderContents(Some(t), bundled, c).None? <==> Guarded(t, c.minutes)
  }

  lemma RendersAll(t: Template, bundled: Template, c: Catalog)
    ensures RenderContents(Some(t), bundled, c).None? <==>
              Guarded(t, c.minutes) || !(forall k :: 0 <= k < 4 ==> Render(Contents(t)[k], k < 2, Substitutions(c, LangOf(k))).Content?)
  {
    assert LangOf(0) == LangOf(2) == Ru && LangOf(1) == LangOf(3) == En;
    assert Contents(t)[0] == t.titleRu && Contents(t)[1] == t.titleEn;
    assert Contents(t)[2] == t.descriptionRu && Contents(t)[3] == t.descriptionEn;
  }

  /** The exact condition: an accepted template renders for every catalog row that the guard lets through if and
      only if it spells `{days}`, so that the guard refuses every part of a day, or fits the three longest rows. */
  lemma EnoughExactly(t: Template, bundled: Template)
    requires AcceptedTemplate(t)
    ensures (forall c :: Legal(c) ==> RendersUnlessGuarded(t, bundled, c)) <==> Mentions(t, "{days}") || TemplateFitsLongest(t)
  {
    if Mentions(t, "{days}") || TemplateFitsLongest(t) {
      forall c | Legal(c)
        ensures RendersUnlessGuarded(t, bundled, c)
      {
        RendersAll(t, bundled, c);
        if !Guarded(t, c.minutes) {
          RendersUnguarded(t, c);
        }
      }
    } else {
      var k :| 0 <= k < 4 && !FitsLongest(Contents(t)[k], k < 2, LangOf(k));
      var l :| 0 <= l < 3 && !Render(Contents(t)[k], k < 2, Substitutions(Longest(l), LangOf(k))).Content?;
      LongestIsLegal(l);
      RendersAll(t, bundled, Longest(l));
      assert !RendersUnlessGuarded(t, bundled, Longest(l));
    }
  }

  lemma RendersUnguarded(t: Template, c: Catalog)
    requires AcceptedTemplate(t) && Legal(c) && !Guarded(t, c.minutes) && (Mentions(t, "{days}") || TemplateFitsLongest(t))
    ensures forall k :: 0 <= k < 4 ==> Render(Contents(t)[k], k < 2, Substitutions(c, LangOf(k))).Content?
  {
    if c.minutes % DAY_MINUTES == 0 {
      TemplateRenders(t, c);
    } else {
      forall k | 0 <= k < 4
        ensures Render(Contents(t)[k], k < 2, Substitutions(c, LangOf(k))).Content?
      {
        LongestRenders(Contents(t)[k], k < 2, c, LangOf(k));
      }
    }
  }

  // ---- The spelling that escapes the guard ------------------------------------------------------

  function Texts(s: string): (r: seq<Part>)
    ensures |r| == |s| && forall k :: 0 <= k < |s| ==> r[k] == Text(s[k])
  {
    if s == "" then [] else [Text(s[0])] + Texts(s[1..])
  }

  lemma {:induction false} PlainRun(pad: string, rest: string)
    requires NoBraces(pad) && Parse(rest).Parts?
    ensures Parse(pad + rest) == Parts(Texts(pad) + Parse(rest).parts)
  {
    if pad == "" {
      assert pad + rest == rest;
      assert Texts(pad) + Parse(rest).parts == Parse(rest).parts;
    } else {
      var s := pad + rest;
      assert s[1..] == pad[1..] + rest;
      PlainRun(pad[1..], rest);
      assert Parse(s) == Prepend(Text(pad[0]), Parse(s[1..]));
      assert [Text(pad[0])] + (Texts(pad[1..]) + Parse(rest).parts) == Texts(pad) + Parse(rest).parts;
    }
  }

  lemma {:induction false} FilledTexts(pad: string, parts: seq<Part>, vars: Variables)
    requires Covers(vars, parts)
    ensures Covers(vars, Texts(pad) + parts) && |Filled(Texts(pad) + parts, vars)| == |pad| + |Filled(parts, vars)|
  {
    if pad == "" {
      assert Texts(pad) + parts == parts;
    } else {
      assert (Texts(pad) + parts)[1..] == Texts(pad[1..]) + parts;
      FilledTexts(pad[1..], parts, vars);
    }
  }

  lemma ParsesColonDays()
    ensures Parse("{days:}") == Parts([Field("days", "", None)])
  {
    var s := "days:}";
    assert NameEnd(s, 4) == Some(4) && NameEnd(s, 3) == Some(4) && NameEnd(s, 2) == Some(4) && NameEnd(s, 1) == Some(4);
    assert NameEnd(s, 0) == Some(4) && SpecEnd(s, 5, 1) == Some(5);
    assert s[..4] == "days" && s[5..5] == "" && s[6..] == "";
    assert ParseField(s) == Some((Field("days", "", None), ""));
    assert "{days:}"[1..] == s;
  }

  lemma OneField(vars: Variables)
    requires "days" in vars
    ensures Covers(vars, [Field("days", "", None)]) && Filled([Field("days", "", None)], vars) == vars["days"]
  {
  }

  lemma NoBareDays(pad: string)
    requires NoBraces(pad)
    ensures !Contains(pad + "{days:}", "{days}")
  {
    var content := pad + "{days:}";
    forall i: nat | i <= |content|
      ensures !OccursAt(content, "{days}", i)
    {
      if i + 6 <= |content| {
        assert content[i..i + 6][0] == content[i] && content[i..i + 6][5] == content[i + 5];
      }
    }
  }

  lemma ColonDaysLength(pad: string, vars: Variables)
    requires NoBraces(pad) && "days" in vars
    ensures ValidContent(pad + "{days:}", false) && Covers(vars, Parse(pad + "{days:}").parts)
    ensures |Filled(Parse(pad + "{days:}").parts, vars)| == |pad| + |vars["days"]|
  {
    ParsesColonDays();
    PlainRun(pad, "{days:}");
    OneField(vars);
    FilledTexts(pad, [Field("days", "", None)], vars);
  }

  /** Such a description is accepted when it is saved and passes the guard, yet half an hour does not fit. */
  lemma ColonDaysEscapes(pad: string, c: Catalog, lang: Lang)
    requires |pad| == DESCRIPTION_LIMIT - 10 && NoBraces(pad) && c.minutes == 30
    ensures var content := pad + "{days:}";
            && Accepted(content, false) && !Contains(content, "{days}")
            && Render(content, false, Substitutions(c, lang)).RenderError?
  {
    NoBareDays(pad);
    ColonDaysLength(pad, MAX_VALUES);
    ColonDaysLength(pad, Substitutions(c, lang));
    LegacyHalfHour(c.minutes);
  }

  // ---- Which template applies -------------------------------------------------------------------

  datatype TemplateRow = TemplateRow(id: int, tier: Option<nat>, scope: Option<nat>, system: bool, enabled: bool)

  predicate Applies(t: TemplateRow, tier: nat, scope: nat) {
    t.enabled && (t.tier.None? || t.tier == Some(tier)) && (t.scope.None? || t.scope == Some(scope))
  }

  function Flag(b: bool): int { if b then 1 else 0 }

  /** More specific first, then one for the tier, then the operator's own, then the older one. */
  predicate Beats(t: TemplateRow, u: TemplateRow) {
    var a, b := Flag(t.tier.Some?) + Flag(t.scope.Some?), Flag(u.tier.Some?) + Flag(u.scope.Some?);
    a > b || (a == b &&
      (Flag(t.tier.Some?) > Flag(u.tier.Some?) || (t.tier.Some? == u.tier.Some? &&
        (Flag(!t.system) > Flag(!u.system) || (t.system == u.system && t.id < u.id)))))
  }

  function Resolved(rows: seq<TemplateRow>, tier: nat, scope: nat): (r: Option<TemplateRow>)
    ensures r.None? <==> forall t :: t in rows ==> !Applies(t, tier, scope)
    ensures r.Some? ==> r.value in rows && Applies(r.value, tier, scope)
  {
    if rows == [] then None
    else
      var rest := Resolved(rows[1..], tier, scope);
      if Applies(rows[0], tier, scope) && (rest.None? || !Beats(rest.value, rows[0])) then Some(rows[0]) else rest
  }

  /** The four questions in their order: how many of tier and scope it names, whether it names the tier, whether an
      operator wrote it, and which is older. */
  ghost predicate Preferred(t: TemplateRow, u: TemplateRow) {
    if t.tier.Some? && t.scope.Some? && !(u.tier.Some? && u.scope.Some?) then true
    else if u.tier.Some? && u.scope.Some? && !(t.tier.Some? && t.scope.Some?) then false
    else if (t.tier.Some? || t.scope.Some?) != (u.tier.Some? || u.scope.Some?) then t.tier.Some? || t.scope.Some?
    else if t.tier.Some? != u.tier.Some? then t.tier.Some?
    else if t.system != u.system then !t.system
    else t.id < u.id
  }

  lemma BeatsLaw(t: TemplateRow, u: TemplateRow)
    ensures Beats(t, u) <==> Preferred(t, u)
  {
  }

  /** Enabled, and naming neither another tier nor another scope. */
  ghost predicate Fitting(t: TemplateRow, tier: nat, scope: nat) {
    t.enabled && (t.tier == None || t.tier == Some(tier)) && (t.scope == None || t.scope == Some(scope))
  }

  /** The resolved template is beaten by none that applies. */
  lemma {:induction false} NoneBeatsResolved(rows: seq<TemplateRow>, tier: nat, scope: nat, t: TemplateRow)
    requires t in rows && Fitting(t, tier, scope)
    ensures !Beats(t, Resolved(rows, tier, scope).value)
    ensures Resolved(rows, tier, scope).value in rows && Fitting(Resolved(rows, tier, scope).value, tier, scope)
    ensures !Preferred(t, Resolved(rows, tier, scope).value)
  {
    var rest := Resolved(rows[1..], tier, scope);
    if t in rows[1..] {
      NoneBeatsResolved(rows[1..], tier, scope, t);
    }
  }

  /** The order of the rows does not matter: the template that beats all others is the one resolved. */
  lemma ResolutionIsUnique(rows: seq<TemplateRow>, tier: nat, scope: nat, t: TemplateRow)
    requires t in rows && Fitting(t, tier, scope)
    requires forall u :: u in rows && Fitting(u, tier, scope) && u != t ==> Preferred(t, u)
    ensures Resolved(rows, tier, scope) == Some(t)
  {
  }

  /** With distinct ids one of two templates always beats the other. */
  lemma IdsDecide(t: TemplateRow, u: TemplateRow)
    requires t.id != u.id
    ensures Beats(t, u) != Beats(u, t)
  {
  }
}
