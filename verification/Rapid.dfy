/**
 RAPID symbols as text: nested records are printed as `[a,[b,c],d]`, and read back by a
 splitter that counts brackets in comma-separated tokens and merges tokens again.
 */
module Rapid {
  import opened Messages

  /** The largest number of a RAPID `num`; it is not printed by the stream. */
  const LARGEST: real := 9000000000.0

  /** How a stream prints a number, and what it reads from a text and the old value. Both are uninterpreted. */
  datatype Format = Format(write: real -> string, read: (string, real) -> real) {
    function Show(x: real): string {
      if x == LARGEST then "9000000000" else write(x)
    }
  }

  /** A symbol: an atom, or a record of components. */
  datatype Symbol =
    | Bool(value: bool)
    | Num(format: Format, number: real)
    | Text(text: string)
    | Record(typeName: string, components: seq<Symbol>)

  const RAPID_TRUE: string := "TRUE"
  const RAPID_FALSE: string := "FALSE"

  // ------------------------------------------------------------------
  // Strings
  // ------------------------------------------------------------------

  function Join(parts: seq<string>): string {
    if parts == [] then ""
    else if |parts| == 1 then parts[0]
    else parts[0] + "," + Join(parts[1..])
  }

  function Count(s: string, c: char): nat {
    if s == "" then 0 else (if s[0] == c then 1 else 0) + Count(s[1..], c)
  }

  /** Opening minus closing brackets. */
  function Depth(s: string): int {
    Count(s, '[') - Count(s, ']')
  }

  /** The first position of a character, or the length of the string. */
  function Find(s: string, c: char): (i: nat)
    ensures i <= |s| && (i < |s| ==> s[i] == c) && c !in s[..i]
  {
    if s == "" then 0 else if s[0] == c then 0 else
      var i := 1 + Find(s[1..], c);
      assert s[..i] == [s[0]] + s[1..][..i - 1];
      i
  }

  /** The last position of a character, or the length of the string. */
  function FindLast(s: string, c: char): (i: nat)
    ensures i <= |s| && (i < |s| ==> s[i] == c && c !in s[i + 1..]) && (i == |s| ==> c !in s)
  {
    if s == "" then 0
    else if s[|s| - 1] == c then |s| - 1
    else
      var i := FindLast(s[..|s| - 1], c);
      if i == |s| - 1 then |s|
      else
        assert s[i + 1..] == s[..|s| - 1][i + 1..] + [s[|s| - 1]];
        i
  }

  function Erase(s: string, i: nat): string
    requires i < |s|
  {
    s[..i] + s[i + 1..]
  }

  // ------------------------------------------------------------------
  // Printing
  // ------------------------------------------------------------------

  function Print(s: Symbol): string {
    match s
    case Bool(value) => if value then RAPID_TRUE else RAPID_FALSE
    case Num(format, number) => format.Show(number)
    case Text(text) => "\"" + text + "\""
    case Record(_, components) => "[" + Join(Prints(components)) + "]"
  }

  function Prints(components: seq<Symbol>): (r: seq<string>)
    ensures |r| == |components|
    ensures forall i :: 0 <= i < |r| ==> r[i] == Print(components[i])
  {
    if components == [] then [] else [Print(components[0])] + Prints(components[1..])
  }

  // ------------------------------------------------------------------
  // Splitting
  // ------------------------------------------------------------------

  /**
   Without the outermost brackets: the first opening and the last closing bracket are erased,
   the latter at the position it has once the former is gone. Absent stands for an exception.
   */
  function Strip(input: string): Optional<string> {
    var first, last := Find(input, '['), FindLast(input, ']');
    if first == |input| || last == |input| then Present(input)
    else if last == 0 then Absent
    else Present(Erase(Erase(input, first), last - 1))
  }

  /** What reading comma-delimited fields gives: an empty field at the very end is not read. */
  function Fields(s: string): seq<string>
    decreases |s|
  {
    if s == "" then []
    else
      var i := Find(s, ',');
      if i == |s| then [s] else [s[..i]] + Fields(s[i + 1..])
  }

  /** The merge loop: fields are collected until the brackets are balanced; empty fields are skipped. */
  function Merge(fields: seq<string>, counter: int, collected: string): seq<string> {
    if fields == [] then []
    else if fields[0] == "" then Merge(fields[1..], counter, collected)
    else
      var depth := counter + Depth(fields[0]);
      if depth == 0 then [collected + fields[0]] + Merge(fields[1..], 0, "")
      else Merge(fields[1..], depth, collected + fields[0] + ",")
  }

  /** `extractDelimitedSubstrings`. */
  function Extract(input: string): Optional<seq<string>> {
    var stripped := Strip(input);
    if stripped.Absent? then Absent else Present(Merge(Fields(stripped.value), 0, ""))
  }

  // ------------------------------------------------------------------
  // Parsing
  // ------------------------------------------------------------------

  predicate IsSpace(c: char) {
    c == ' ' || c == '\t' || c == '\n' || c == '\r' || c == 11 as char || c == 12 as char
  }

  function SkipSpaces(s: string): (r: string)
    ensures r == "" || !IsSpace(r[0])
  {
    if s != "" && IsSpace(s[0]) then SkipSpaces(s[1..]) else s
  }

  function TakeWord(s: string): (r: string)
    ensures forall i :: 0 <= i < |r| ==> !IsSpace(r[i])
    ensures s != "" && !IsSpace(s[0]) ==> r != ""
  {
    if s == "" || IsSpace(s[0]) then "" else [s[0]] + TakeWord(s[1..])
  }

  /** Reading a word from a text; with no word there, the old value stays. */
  function ReadWord(s: string, previous: string): string {
    var rest := SkipSpaces(s);
    if rest == "" then previous else TakeWord(rest)
  }

  /**
   Without a quotation mark at the start, and without one at the end. When nothing is left to look
   for the latter in, the position not found equals the last position, and erasing throws.
   */
  function Unquote(s: string): Optional<string> {
    var tail := if s != "" && s[0] == '\"' then s[1..] else s;
    if tail == "" then Absent
    else if tail[|tail| - 1] == '\"' then Present(tail[..|tail| - 1])
    else Present(tail)
  }

  /** The symbol after `parseString`; absent for an exception. A record ignores a text of the wrong arity. */
  function Parse(s: Symbol, text: string): Optional<Symbol> {
    match s
    case Bool(_) => Present(Bool(text == RAPID_TRUE))
    case Num(format, previous) => Present(Num(format, format.read(text, previous)))
    case Text(previous) =>
      var unquoted := Unquote(text);
      if unquoted.Absent? then Absent else Present(Text(ReadWord(unquoted.value, previous)))
    case Record(typeName, components) =>
      var pieces := Extract(text);
      if pieces.Absent? then Absent
      else if |pieces.value| != |components| then Present(s)
      else
        var parsed := ParseAll(components, pieces.value);
        if parsed.Absent? then Absent else Present(Record(typeName, parsed.value))
  }

  function ParseAll(components: seq<Symbol>, pieces: seq<string>): (r: Optional<seq<Symbol>>)
    requires |components| == |pieces|
    ensures r.Present? ==> |r.value| == |components|
    ensures r.Present? ==> forall i :: 0 <= i < |components| ==> Parse(components[i], pieces[i]) == Present(r.value[i])
    ensures r.Absent? ==> exists i :: 0 <= i < |components| && Parse(components[i], pieces[i]) == Absent
  {
    if components == [] then Present([])
    else
      var first := Parse(components[0], pieces[0]);
      if first.Absent? then Absent
      else
        var rest := ParseAll(components[1..], pieces[1..]);
        if rest.Absent? then
          var i :| 0 <= i < |components[1..]| && Parse(components[1..][i], pieces[1..][i]) == Absent;
          assert Parse(components[i + 1], pieces[i + 1]) == Absent;
          Absent
        else Present([first.value] + rest.value)
  }

  /** `operator=`: records of the same type and size copy their components through text. */
  function Assign(target: Symbol, source: Symbol): Optional<Symbol>
    requires target.Record? && source.Record?
  {
    if target.typeName != source.typeName || |target.components| != |source.components| then Present(target)
    else
      var parsed := ParseAll(target.components, Prints(source.components));
      if parsed.Absent? then Absent else Present(Record(target.typeName, parsed.value))
  }

  // ------------------------------------------------------------------
  // The splitter
  // ------------------------------------------------------------------

  /** The specification of the splitter: split at the commas outside of all brackets. */
  function Split(s: string, depth: int, piece: string): seq<string> {
    if s == "" then [piece]
    else if s[0] == ',' && depth == 0 then [piece] + Split(s[1..], 0, "")
    else Split(s[1..], depth + Depth([s[0]]), piece + [s[0]])
  }

  lemma {:induction false} CountOfSum(s: string, t: string, c: char)
    ensures Count(s + t, c) == Count(s, c) + Count(t, c)
  {
    if s == "" {
      assert s + t == t;
    } else {
      assert (s + t)[1..] == s[1..] + t;
      CountOfSum(s[1..], t, c);
    }
  }

  lemma DepthOfSum(s: string, t: string)
    ensures Depth(s + t) == Depth(s) + Depth(t)
  {
    CountOfSum(s, t, '[');
    CountOfSum(s, t, ']');
  }

  /** A stretch without commas outside of brackets goes into one piece. */
  lemma {:induction false} SplitPasses(p: string, rest: string, depth: int, piece: string)
    requires forall i :: 0 <= i < |p| && p[i] == ',' ==> depth + Depth(p[..i]) != 0
    ensures Split(p + rest, depth, piece) == Split(rest, depth + Depth(p), piece + p)
    decreases |p|
  {
    if p == "" {
      assert p + rest == rest && piece + p == piece;
    } else {
      var d := depth + Depth([p[0]]);
      assert p == [p[0]] + p[1..] && (p + rest)[1..] == p[1..] + rest && (p + rest)[0] == p[0];
      DepthOfSum([p[0]], p[1..]);
      if p[0] == ',' {
        assert p[..0] == "";
      }
      forall i | 0 <= i < |p[1..]| && p[1..][i] == ',' ensures d + Depth(p[1..][..i]) != 0 {
        assert p[..i + 1] == [p[0]] + p[1..][..i];
        DepthOfSum([p[0]], p[1..][..i]);
      }
      SplitPasses(p[1..], rest, d, piece + [p[0]]);
      assert piece + [p[0]] + p[1..] == piece + p;
    }
  }

  predicate CommaFree(s: string) {
    ',' !in s
  }

  /** Fields that are read as they are: neither empty nor containing a comma. */
  predicate Plain(fields: seq<string>) {
    forall i :: 0 <= i < |fields| ==> fields[i] != "" && CommaFree(fields[i])
  }

  lemma JoinStep(parts: seq<string>)
    requires |parts| > 1
    ensures Join(parts) == parts[0] + ("," + Join(parts[1..]))
  {
    assert parts[0] + "," + Join(parts[1..]) == parts[0] + ("," + Join(parts[1..]));
  }

  /** The merge loop splits at the commas outside of all brackets, if the brackets balance in the end. */
  lemma {:induction false} MergeSplits(fields: seq<string>, counter: int, collected: string)
    requires fields != [] && Plain(fields) && counter + Depth(Join(fields)) == 0
    ensures Merge(fields, counter, collected) == Split(Join(fields), counter, collected)
    decreases |fields|
  {
    var f, rest := fields[0], fields[1..];
    var depth := counter + Depth(f);
    if rest == [] {
      assert Join(fields) == f && f + "" == f;
      SplitPasses(f, "", counter, collected);
      assert Merge(rest, 0, "") == [];
    } else {
      var tail := "," + Join(rest);
      JoinStep(fields);
      DepthOfSum(f, tail);
      DepthOfSum(",", Join(rest));
      assert Depth(",") == 0;
      SplitPasses(f, tail, counter, collected);
      assert tail[0] == ',' && tail[1..] == Join(rest);
      if depth == 0 {
        MergeSplits(rest, 0, "");
      } else {
        assert collected + f + [tail[0]] == collected + f + ",";
        MergeSplits(rest, depth, collected + f + ",");
      }
    }
  }

  lemma {:induction false} FindInSum(f: string, rest: string)
    requires CommaFree(f)
    ensures Find(f + ("," + rest), ',') == |f|
    decreases |f|
  {
    var s := f + ("," + rest);
    if f != "" {
      assert s[1..] == f[1..] + ("," + rest);
      FindInSum(f[1..], rest);
    }
  }

  lemma FindNothing(f: string)
    requires CommaFree(f)
    ensures Find(f, ',') == |f|
  {
  }

  /** The comma at the very end of a string, after which no field is read. */
  function LastComma(s: string): string {
    if s != "" && s[|s| - 1] == ',' then "," else ""
  }

  lemma {:induction false} FieldsStep(s: string) returns (f: string, rest: string)
    requires s != "" && ',' in s
    ensures s == f + ("," + rest) && CommaFree(f) && |rest| < |s|
    ensures Fields(s) == [f] + Fields(rest)
    ensures LastComma(s) == if rest == "" then "," else LastComma(rest)
  {
    hide Fields;
    var i := Find(s, ',');
    assert s[..|s|] == s;
    f, rest := s[..i], s[i + 1..];
    assert s == f + ("," + rest);
    FieldsUnfolds(s, i);
  }

  lemma FieldsUnfolds(s: string, i: nat)
    requires s != "" && i == Find(s, ',') && i < |s|
    ensures Fields(s) == [s[..i]] + Fields(s[i + 1..])
  {
  }

  lemma OneField(s: string)
    requires s != "" && CommaFree(s)
    ensures Fields(s) == [s] && LastComma(s) == ""
  {
    FindNothing(s);
    if s[|s| - 1] == ',' {
      assert false;
    }
  }

  /** The fields put together again, and the last comma, are the string. */
  lemma {:induction false} JoinOfFields(s: string)
    ensures s == Join(Fields(s)) + LastComma(s)
    decreases |s|
  {
    hide Fields, LastComma;
    if s == "" {
      NoFields();
    } else if ',' !in s {
      OneField(s);
      assert s + "" == s;
    } else {
      var f, rest := FieldsStep(s);
      JoinOfFields(rest);
      if rest == "" {
        NoFields();
        assert Fields(s) == [f];
        assert "," + "" == ",";
      } else {
        FieldsExist(rest);
        JoinStep(Fields(s));
        assert Fields(s)[1..] == Fields(rest);
        assert f + ("," + (Join(Fields(rest)) + LastComma(rest))) == f + ("," + Join(Fields(rest))) + LastComma(rest);
      }
    }
  }

  lemma NoFields()
    ensures Fields("") == [] && LastComma("") == ""
  {
  }

  lemma FieldsExist(s: string)
    requires s != ""
    ensures Fields(s) != []
  {
  }

  /** No empty piece: every comma has something else before it, and something after it. */
  predicate NoEmptyPieces(s: string) {
    s != "" && forall i :: 0 <= i < |s| && s[i] == ',' ==> 0 < i < |s| - 1 && s[i - 1] != ','
  }

  lemma NoEmptyStep(f: string, rest: string)
    requires CommaFree(f)
    ensures NoEmptyPieces(f + ("," + rest)) <==> f != "" && NoEmptyPieces(rest)
  {
    var s := f + ("," + rest);
    var n := |f|;
    assert s[n] == ',';
    assert forall k :: 0 <= k < n ==> s[k] == f[k] && s[k] != ',';
    assert forall k :: 0 <= k < |rest| ==> s[n + 1 + k] == rest[k];
    if NoEmptyPieces(s) {
      forall i | 0 <= i < |rest| && rest[i] == ',' ensures 0 < i < |rest| - 1 && rest[i - 1] != ',' {
        assert s[n + 1 + i] == ',';
        if i > 0 {
          assert s[n + 1 + (i - 1)] == rest[i - 1];
        }
      }
    }
    if f != "" && NoEmptyPieces(rest) {
      forall i | 0 <= i < |s| && s[i] == ',' ensures 0 < i < |s| - 1 && s[i - 1] != ',' {
        if i > n {
          assert rest[i - n - 1] == ',';
          assert s[n + 1 + (i - n - 2)] == rest[i - n - 2];
        } else {
          assert i == n;
        }
      }
    }
  }

  lemma PlainStep(f: string, fields: seq<string>)
    ensures Plain([f] + fields) <==> f != "" && CommaFree(f) && Plain(fields)
  {
    hide CommaFree;
    var all := [f] + fields;
    assert all[0] == f;
    assert forall k :: 0 <= k < |fields| ==> all[k + 1] == fields[k];
    if Plain(all) {
      forall k | 0 <= k < |fields| ensures fields[k] != "" && CommaFree(fields[k]) {
        assert all[k + 1] == fields[k];
      }
    }
  }

  lemma {:induction false} FieldsArePlain(s: string)
    requires s != "" && LastComma(s) == ""
    ensures Plain(Fields(s)) <==> NoEmptyPieces(s)
    ensures Fields(s)[|Fields(s)| - 1] != ""
    ensures forall i :: 0 <= i < |Fields(s)| ==> CommaFree(Fields(s)[i])
    decreases |s|
  {
    hide Fields, LastComma, Plain, NoEmptyPieces;
    if ',' !in s {
      OneField(s);
      PlainStep(s, []);
      assert [s] + [] == [s];
      NothingPlain(s);
    } else {
      var f, rest := FieldsStep(s);
      FieldsExist(rest);
      FieldsArePlain(rest);
      PlainStep(f, Fields(rest));
      NoEmptyStep(f, rest);
    }
  }

  lemma NothingPlain(s: string)
    requires s != "" && CommaFree(s)
    ensures Plain([]) && NoEmptyPieces(s)
  {
    if i :| 0 <= i < |s| && s[i] == ',' {
      assert false;
    }
  }

  /**
   On every body with balanced brackets and no empty pieces between commas, the merge loop
   returns exactly the split at the commas outside of all brackets.
   */
  lemma MergeRefinesSplit(body: string)
    requires NoEmptyPieces(body) && Depth(body) == 0
    ensures Merge(Fields(body), 0, "") == Split(body, 0, "")
  {
    NoLastComma(body);
    JoinOfFields(body);
    FieldsArePlain(body);
    assert Join(Fields(body)) + "" == Join(Fields(body));
    MergeSplits(Fields(body), 0, "");
  }

  lemma NoLastComma(s: string)
    requires NoEmptyPieces(s)
    ensures LastComma(s) == ""
  {
  }

  /** Splitting loses nothing: the pieces put together again are the string. */
  lemma {:induction false} SplitJoins(s: string, depth: int, piece: string)
    ensures Split(s, depth, piece) != []
    ensures Join(Split(s, depth, piece)) == piece + s
    decreases |s|
  {
    if s == "" {
      assert piece + s == piece;
    } else if s[0] == ',' && depth == 0 {
      SplitJoins(s[1..], 0, "");
      JoinStep(Split(s, depth, piece));
      assert Split(s, depth, piece)[1..] == Split(s[1..], 0, "");
      assert "" + s[1..] == s[1..] && s == "," + s[1..];
    } else {
      SplitJoins(s[1..], depth + Depth([s[0]]), piece + [s[0]]);
      assert piece + [s[0]] + s[1..] == piece + s;
    }
  }

  // How much the merge loop can lose

  function JoinSize(parts: seq<string>): nat {
    |Join(parts)|
  }

  lemma JoinSizeStep(first: string, rest: seq<string>)
    ensures JoinSize([first] + rest) == |first| + if rest == [] then 0 else 1 + JoinSize(rest)
  {
    assert ([first] + rest)[1..] == rest;
  }

  lemma {:induction false} MergeLoses(fields: seq<string>, counter: int, collected: string)
    ensures var size := JoinSize(Merge(fields, counter, collected));
            && size <= |collected| + JoinSize(fields)
            && (size == |collected| + JoinSize(fields) && (fields == [] || fields[|fields| - 1] != "") ==>
                  if fields == [] then collected == ""
                  else (forall i :: 0 <= i < |fields| ==> fields[i] != "") && counter + Depth(Join(fields)) == 0)
    decreases |fields|
  {
    if fields != [] {
      var f, rest := fields[0], fields[1..];
      assert fields == [f] + rest;
      JoinSizeStep(f, rest);
      var depth := counter + Depth(f);
      if rest != [] {
        JoinStep(fields);
        DepthOfSum(f, "," + Join(rest));
        DepthOfSum(",", Join(rest));
        assert Depth(",") == 0;
      }
      if f == "" {
        MergeLoses(rest, counter, collected);
      } else if depth == 0 {
        MergeLoses(rest, 0, "");
        JoinSizeStep(collected + f, Merge(rest, 0, ""));
      } else {
        MergeLoses(rest, depth, collected + f + ",");
      }
    }
  }

  /**
   Putting the extracted pieces together again gives the body back if and only if the body is
   empty, or its brackets balance and it has no empty piece between commas.
   */
  lemma RejoinGivesBody(body: string)
    ensures Join(Merge(Fields(body), 0, "")) == body
       <==> body == "" || (NoEmptyPieces(body) && Depth(body) == 0)
  {
    hide NoEmptyPieces;
    JoinOfFields(body);
    MergeLoses(Fields(body), 0, "");
    if body == "" {
    } else if LastComma(body) == "" {
      assert Join(Fields(body)) + "" == Join(Fields(body));
      FieldsArePlain(body);
      if NoEmptyPieces(body) && Depth(body) == 0 {
        MergeRefinesSplit(body);
        SplitJoins(body, 0, "");
        assert "" + body == body;
      }
    } else if NoEmptyPieces(body) {
      NoLastComma(body);
    }
  }

  // ------------------------------------------------------------------
  // Printing and parsing are inverse
  // ------------------------------------------------------------------

  /** A text without any delimiter. */
  predicate Free(s: string) {
    forall i :: 0 <= i < |s| ==> s[i] != '[' && s[i] != ']' && s[i] != ','
  }

  /** Balanced, with commas inside brackets only, and no empty piece. */
  predicate Closed(s: string) {
    Depth(s) == 0 && NoEmptyPieces(s) && forall i :: 0 <= i < |s| && s[i] == ',' ==> Depth(s[..i]) > 0
  }

  /** Balanced, with no comma before an unmatched closing bracket, and no empty piece. */
  predicate Listed(s: string) {
    Depth(s) == 0 && NoEmptyPieces(s) && forall i :: 0 <= i < |s| && s[i] == ',' ==> Depth(s[..i]) >= 0
  }

  lemma {:induction false} NoneOf(s: string, c: char)
    requires forall i :: 0 <= i < |s| ==> s[i] != c
    ensures Count(s, c) == 0
  {
    if s != "" {
      NoneOf(s[1..], c);
    }
  }

  lemma FreeIsClosed(s: string)
    requires s != "" && Free(s)
    ensures Closed(s)
  {
    NoneOf(s, '[');
    NoneOf(s, ']');
  }

  lemma ListedStep(f: string, rest: string)
    requires Closed(f) && Listed(rest)
    ensures Listed(f + ("," + rest))
  {
    hide Depth, NoEmptyPieces;
    var s, n := f + ("," + rest), |f|;
    DepthOfSum(f, "," + rest);
    DepthOfSum(",", rest);
    CommaHasNoDepth();
    NoEmptySum(f, rest);
    forall i | 0 <= i < |s| && s[i] == ',' ensures Depth(s[..i]) >= 0 {
      if i < n {
        assert s[..i] == f[..i] && f[i] == ',';
      } else if i == n {
        assert s[..i] == f;
      } else {
        var k := i - n - 1;
        assert s[..i] == f + ("," + rest[..k]) && rest[k] == ',';
        DepthOfSum(f, "," + rest[..k]);
        DepthOfSum(",", rest[..k]);
      }
    }
  }

  lemma CommaHasNoDepth()
    ensures Depth(",") == 0 && Depth("[") == 1 && Depth("]") == -1
  {
  }

  lemma NoEmptySum(f: string, rest: string)
    requires NoEmptyPieces(f) && NoEmptyPieces(rest)
    ensures NoEmptyPieces(f + ("," + rest))
  {
    var s, n := f + ("," + rest), |f|;
    assert f[n - 1] != ',';
    assert rest[0] != ',';
    forall i | 0 <= i < |s| && s[i] == ',' ensures 0 < i < |s| - 1 && s[i - 1] != ',' {
      if i < n {
        assert f[i] == ',' && s[i - 1] == f[i - 1];
      } else if i > n {
        assert rest[i - n - 1] == ',' && s[i - 1] == rest[i - n - 2];
      }
    }
  }

  predicate AllClosed(parts: seq<string>) {
    forall i :: 0 <= i < |parts| ==> Closed(parts[i])
  }

  lemma {:induction false} JoinIsListed(parts: seq<string>)
    requires parts != [] && AllClosed(parts)
    ensures Listed(Join(parts))
  {
    hide Closed, Listed;
    if |parts| == 1 {
      ClosedIsListed(parts[0]);
    } else {
      JoinIsListed(parts[1..]);
      JoinStep(parts);
      ListedStep(parts[0], Join(parts[1..]));
    }
  }

  lemma ClosedIsListed(s: string)
    requires Closed(s)
    ensures Listed(s)
  {
  }

  lemma BracketsClose(body: string)
    requires body == "" || Listed(body)
    ensures Closed("[" + body + "]")
  {
    hide Depth;
    var s := "[" + body + "]";
    CommaHasNoDepth();
    DepthOfSum("[" + body, "]");
    DepthOfSum("[", body);
    EmptyHasNoDepth();
    forall i | 0 <= i < |s| && s[i] == ','
      ensures Depth(s[..i]) > 0
      ensures 0 < i < |s| - 1 && s[i - 1] != ','
    {
      assert body[i - 1] == ',';
      assert s[..i] == "[" + body[..i - 1];
      DepthOfSum("[", body[..i - 1]);
      if i > 1 {
        assert s[i - 1] == body[i - 2];
      }
    }
  }

  lemma EmptyHasNoDepth()
    ensures Depth("") == 0
  {
  }

  /** Leaves whose text is free of delimiters, numbers being printed as something. */
  predicate Printable(s: Symbol) {
    match s
    case Bool(_) => true
    case Num(format, number) => format.Show(number) != "" && Free(format.Show(number))
    case Text(text) => Free(text)
    case Record(_, components) => forall i :: 0 <= i < |components| ==> Printable(components[i])
  }

  lemma {:induction false} PrintIsClosed(s: Symbol)
    requires Printable(s)
    ensures Closed(Print(s))
  {
    hide Closed, Free;
    match s
    case Bool(value) => TruthIsFree(); FreeIsClosed(Print(s));
    case Num(format, number) => FreeIsClosed(format.Show(number));
    case Text(text) =>
      QuotedIsFree(text);
      FreeIsClosed(Print(s));
    case Record(_, components) =>
      forall i | 0 <= i < |components| ensures Closed(Prints(components)[i]) {
        PrintIsClosed(components[i]);
      }
      if components != [] {
        JoinIsListed(Prints(components));
      }
      BracketsClose(Join(Prints(components)));
  }

  lemma TruthIsFree()
    ensures Free(RAPID_TRUE) && Free(RAPID_FALSE)
  {
  }

  lemma QuotedIsFree(text: string)
    requires Free(text)
    ensures Free("\"" + text + "\"")
  {
  }

  lemma {:induction false} SplitOfJoin(parts: seq<string>)
    requires parts != [] && AllClosed(parts)
    ensures Split(Join(parts), 0, "") == parts
  {
    hide Depth, NoEmptyPieces;
    var f, rest := parts[0], parts[1..];
    if rest == [] {
      assert Join(parts) == f && f + "" == f && "" + f == f;
      SplitPasses(f, "", 0, "");
    } else {
      var tail := "," + Join(rest);
      JoinStep(parts);
      assert "" + f == f;
      SplitPasses(f, tail, 0, "");
      assert tail[0] == ',' && tail[1..] == Join(rest);
      SplitOfJoin(rest);
    }
  }

  lemma StripsBrackets(body: string)
    ensures Strip("[" + body + "]") == Present(body)
  {
    var input := "[" + body + "]";
    assert Find(input, '[') == 0;
    assert FindLast(input, ']') == |input| - 1;
    assert Erase(input, 0) == body + "]";
    assert Erase(body + "]", |body|) == body;
  }

  /** The components of a printed record are found again. */
  lemma {:induction false} ExtractOfPrint(components: seq<Symbol>)
    requires forall i :: 0 <= i < |components| ==> Printable(components[i])
    ensures Extract("[" + Join(Prints(components)) + "]") == Present(Prints(components))
  {
    hide Strip, Closed, Listed, Printable;
    var parts := Prints(components);
    StripsBrackets(Join(parts));
    if components != [] {
      forall i | 0 <= i < |parts| ensures Closed(parts[i]) {
        PrintIsClosed(components[i]);
      }
      JoinIsListed(parts);
      ListedIsMerged(Join(parts));
      SplitOfJoin(parts);
    } else {
      NoFields();
    }
  }

  lemma ListedIsMerged(body: string)
    requires Listed(body)
    ensures Merge(Fields(body), 0, "") == Split(body, 0, "")
  {
    MergeRefinesSplit(body);
  }

  // Words

  /** A text that a stream reads as one word. */
  predicate Word(s: string) {
    s != "" && forall i :: 0 <= i < |s| ==> !IsSpace(s[i])
  }

  lemma {:induction false} TakesAll(s: string)
    requires forall i :: 0 <= i < |s| ==> !IsSpace(s[i])
    ensures TakeWord(s) == s
  {
    if s != "" {
      TakesAll(s[1..]);
    }
  }

  /** A text is read back if and only if it is one word, or has no word and the old text is the same. */
  lemma TextIsReadBack(s: string, previous: string)
    ensures ReadWord(s, previous) == s <==> Word(s) || (SkipSpaces(s) == "" && previous == s)
  {
    if Word(s) {
      TakesAll(s);
    }
  }

  lemma {:induction false} SkipsLead(lead: string, rest: string)
    requires (forall i :: 0 <= i < |lead| ==> IsSpace(lead[i])) && rest != "" && !IsSpace(rest[0])
    ensures SkipSpaces(lead + rest) == rest
  {
    if lead == "" {
      assert lead + rest == rest;
    } else {
      assert (lead + rest)[1..] == lead[1..] + rest;
      SkipsLead(lead[1..], rest);
    }
  }

  lemma {:induction false} TakesUpToSpace(word: string, rest: string)
    requires (forall i :: 0 <= i < |word| ==> !IsSpace(word[i])) && (rest == "" || IsSpace(rest[0]))
    ensures TakeWord(word + rest) == word
  {
    if word != "" {
      assert (word + rest)[1..] == word[1..] + rest;
      TakesUpToSpace(word[1..], rest);
    } else {
      assert word + rest == rest;
    }
  }

  /** Of a text with several words, the first one is read; white space before it is skipped. */
  lemma {:induction false} FirstWordIsRead(lead: string, word: string, rest: string, previous: string)
    requires (forall i :: 0 <= i < |lead| ==> IsSpace(lead[i])) && Word(word) && (rest == "" || IsSpace(rest[0]))
    ensures ReadWord(lead + (word + rest), previous) == word
  {
    SkipsLead(lead, word + rest);
    TakesUpToSpace(word, rest);
  }

  lemma QuotesAreStripped(s: string)
    ensures Unquote("\"" + s + "\"") == Present(s)
  {
    var tail := s + "\"";
    assert ("\"" + s + "\"")[1..] == tail && tail[..|tail| - 1] == s;
  }

  /** Parsing a string throws if and only if its text is empty or a lone quotation mark. */
  lemma TextThrows(text: string, previous: string)
    ensures Parse(Text(previous), text).Absent? <==> text == "" || text == "\""
  {
  }

  /** Records of the same types, component by component. */
  ghost predicate SameShape(t: Symbol, s: Symbol) {
    match s
    case Bool(_) => t.Bool?
    case Num(format, _) => t.Num? && t.format == format
    case Text(_) => t.Text?
    case Record(typeName, components) =>
      t.Record? && t.typeName == typeName && |t.components| == |components|
      && forall i :: 0 <= i < |components| ==> SameShape(t.components[i], components[i])
  }

  /**
   Every text of `s` is one word, or has no word and is what `t` has there; and every number is read
   back from its own text, which it is not if it needs more digits than are printed.
   */
  ghost predicate Restorable(t: Symbol, s: Symbol)
    requires SameShape(t, s)
  {
    match s
    case Num(format, number) => format.read(format.Show(number), t.number) == number
    case Text(text) => Word(text) || (SkipSpaces(text) == "" && t.text == text)
    case Record(_, components) =>
      forall i :: 0 <= i < |components| ==> Restorable(t.components[i], components[i])
    case _ => true
  }

  lemma {:induction false} ComponentsRoundTrip(ts: seq<Symbol>, ss: seq<Symbol>)
    requires |ts| == |ss|
    requires forall i :: 0 <= i < |ss| ==> Parse(ts[i], Print(ss[i])).Present?
    ensures ParseAll(ts, Prints(ss)).Present?
    ensures ParseAll(ts, Prints(ss)).value == ss
       <==> forall i :: 0 <= i < |ss| ==> Parse(ts[i], Print(ss[i])) == Present(ss[i])
  {
    var r := ParseAll(ts, Prints(ss));
    assert forall i :: 0 <= i < |ss| ==> Parse(ts[i], Prints(ss)[i]).Present?;
    if forall i :: 0 <= i < |ss| ==> Parse(ts[i], Print(ss[i])) == Present(ss[i]) {
      assert forall i :: 0 <= i < |ss| ==> r.value[i] == ss[i];
    }
  }

  /**
   Printing and parsing are inverse: for every record tree of delimiter-free leaves, of any
   depth and width, parsing what was printed restores every leaf if and only if every text
   is one word (or has none, and the target holds it already), and every number is read back
   from what is printed for it.
   */
  lemma {:induction false} RoundTrip(t: Symbol, s: Symbol)
    requires SameShape(t, s) && Printable(s)
    ensures Parse(t, Print(s)).Present?
    ensures Parse(t, Print(s)) == Present(s) <==> Restorable(t, s)
    decreases s
  {
    match s
    case Bool(_) =>
    case Num(_, _) =>
    case Text(text) =>
      QuotesAreStripped(text);
      TextIsReadBack(text, t.text);
    case Record(_, components) =>
      ExtractOfPrint(components);
      forall i | 0 <= i < |components|
        ensures Parse(t.components[i], Print(components[i])).Present?
        ensures Parse(t.components[i], Print(components[i])) == Present(components[i])
           <==> Restorable(t.components[i], components[i])
      {
        RoundTrip(t.components[i], components[i]);
      }
      ComponentsRoundTrip(t.components, components);
  }

  /** So assignment copies a record exactly, if and only if all its texts and numbers survive it. */
  lemma {:induction false} AssignmentCopies(target: Symbol, source: Symbol)
    requires target.Record? && source.Record? && SameShape(target, source) && Printable(source)
    ensures Assign(target, source) == Present(source) <==> Restorable(target, source)
  {
    hide Print, Parse, ParseAll, Restorable;
    RestorableComponents(target, source);
    forall i | 0 <= i < |source.components|
      ensures Parse(target.components[i], Print(source.components[i])).Present?
      ensures Parse(target.components[i], Print(source.components[i])) == Present(source.components[i])
         <==> Restorable(target.components[i], source.components[i])
    {
      RoundTrip(target.components[i], source.components[i]);
    }
    ComponentsRoundTrip(target.components, source.components);
  }

  /** Assignment between records of other types or sizes does nothing, and neither does a text of other arity. */
  lemma {:induction false} MismatchIsIgnored(target: Symbol, source: Symbol)
    requires target.Record? && source.Record? && Printable(source)
    ensures target.typeName != source.typeName || |target.components| != |source.components| ==>
              Assign(target, source) == Present(target)
    ensures |target.components| != |source.components| ==> Parse(target, Print(source)) == Present(target)
  {
    hide Extract;
    ExtractOfPrint(source.components);
  }

  /** The form of what is printed. */
  lemma {:induction false} PrintedForm(format: Format, text: string, first: Symbol, second: Symbol)
    ensures Print(Bool(true)) == "TRUE" && Print(Bool(false)) == "FALSE"
    ensures Print(Num(format, 9000000000.0)) == "9000000000"
    ensures Print(Text(text)) == ['"'] + text + ['"']
    ensures Print(Record("", [first, second])) == ['['] + Print(first) + [','] + Print(second) + [']']
  {
    var all := [first, second];
    assert all[1..] == [second] && all[1..][1..] == [];
    assert Prints(all) == [Print(first), Print(second)];
    assert Prints(all)[1..] == [Print(second)];
    assert Join(Prints(all)) == Print(first) + "," + Print(second);
  }

  lemma RestorableComponents(t: Symbol, s: Symbol)
    requires t.Record? && s.Record? && SameShape(t, s)
    ensures Restorable(t, s) <==>
            forall i :: 0 <= i < |s.components| ==> Restorable(t.components[i], s.components[i])
  {
  }
}
