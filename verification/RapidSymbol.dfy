/**
 RAPID symbols: atoms hold a value that parsing overwrites, and records share pointers to their
 components. The methods are proved against the functions of `Rapid`.
 */
module RapidSymbols {
  import opened Messages
  import Rapid

  datatype Kind = BoolAtom | NumAtom | StringAtom | RecordOf(typeName: string)

  lemma {:induction false} JoinAppends(parts: seq<string>, last: string)
    ensures Rapid.Join(parts + [last]) == if parts == [] then last else Rapid.Join(parts) + "," + last
    decreases |parts|
  {
    if parts != [] {
      var all := parts + [last];
      assert all[1..] == parts[1..] + [last];
      JoinAppends(parts[1..], last);
      if |parts| > 1 {
        Rapid.JoinStep(parts);
        Rapid.JoinStep(all);
        assert parts[0] + ("," + (Rapid.Join(parts[1..]) + "," + last))
          == parts[0] + ("," + Rapid.Join(parts[1..])) + "," + last;
      }
    }
  }

  lemma {:induction false} EraseCounts(s: string, c: char)
    requires c in s
    ensures Rapid.Find(s, c) < |s|
    ensures Rapid.Count(Rapid.Erase(s, Rapid.Find(s, c)), c) == Rapid.Count(s, c) - 1
  {
    var i := Rapid.Find(s, c);
    assert s[..|s|] == s;
    assert s == s[..i] + ([s[i]] + s[i + 1..]);
    Rapid.CountOfSum(s[..i], [s[i]] + s[i + 1..], c);
    Rapid.CountOfSum([s[i]], s[i + 1..], c);
    Rapid.CountOfSum(s[..i], s[i + 1..], c);
    assert Rapid.Count([s[i]], c) == 1;
  }

  /** `countCharInString`: counts by erasing one occurrence after the other. */
  method CountCharInString(input: string, character: char) returns (count: nat)
    ensures count == Rapid.Count(input, character)
  {
    var done := false;
    var left := input;
    count := 0;
    while !done
      invariant count + Rapid.Count(left, character) == Rapid.Count(input, character)
      invariant done ==> character !in left
      decreases |left|, !done
    {
      var position := Rapid.Find(left, character);
      if position != |left| {
        EraseCounts(left, character);
        count := count + 1;
        left := Rapid.Erase(left, position);
      } else {
        assert left[..|left|] == left;
        done := true;
      }
    }
    Rapid.NoneOf(left, character);
  }

  /** Reads the next field from a stream, up to a comma or the end. */
  method GetLine(stream: string) returns (success: bool, field: string, rest: string)
    ensures success == (stream != "")
    ensures success ==> Rapid.Fields(stream) == [field] + Rapid.Fields(rest) && |rest| < |stream|
  {
    success, field, rest := stream != "", "", "";
    if success {
      var i := Rapid.Find(stream, ',');
      field := stream[..i];
      rest := if i == |stream| then "" else stream[i + 1..];
      assert i == |stream| ==> field == stream;
    }
  }

  lemma DepthIs(field: string, opening: nat, closing: nat)
    requires opening == Rapid.Count(field, '[') && closing == Rapid.Count(field, ']')
    ensures Rapid.Depth(field) == opening - closing
  {
  }

  lemma MergeStep(field: string, rest: seq<string>, counter: int, collected: string)
    ensures Rapid.Merge([field] + rest, counter, collected) ==
              if field == "" then Rapid.Merge(rest, counter, collected)
              else if counter + Rapid.Depth(field) == 0 then [collected + field] + Rapid.Merge(rest, 0, "")
              else Rapid.Merge(rest, counter + Rapid.Depth(field), collected + field + ",")
  {
    assert ([field] + rest)[1..] == rest;
  }

  lemma NothingToMerge(counter: int, collected: string)
    ensures Rapid.Merge(Rapid.Fields(""), counter, collected) == []
  {
  }

  /** `extractDelimitedSubstrings`; its counter is the depth of brackets in the fields read so far. */
  method ExtractDelimitedSubstrings(input: string) returns (values: Optional<seq<string>>)
    ensures values == Rapid.Extract(input)
  {
    hide Rapid.Strip, Rapid.Fields, Rapid.Depth, Rapid.Count, Rapid.Merge;
    var stripped := Rapid.Strip(input);
    Rapid.EmptyHasNoDepth();
    if stripped.Absent? {
      return Absent;
    }
    var stream := stripped.value;
    var found: seq<string> := [];
    var collected := "";
    var counter: int := 0;
    ghost var read := "";
    var more, field, rest := GetLine(stream);
    while more
      invariant more ==> Rapid.Fields(stream) == [field] + Rapid.Fields(rest) && |rest| < |stream|
      invariant !more ==> stream == ""
      invariant counter == Rapid.Depth(read)
      invariant found + Rapid.Merge(Rapid.Fields(stream), counter, collected)
             == Rapid.Merge(Rapid.Fields(stripped.value), 0, "")
      decreases |stream|, more
    {
      MergeStep(field, Rapid.Fields(rest), counter, collected);
      if field != "" {
        var opening := CountCharInString(field, '[');
        var closing := CountCharInString(field, ']');
        DepthIs(field, opening, closing);
        counter := counter + opening - closing;
        Rapid.DepthOfSum(read, field);
        read := read + field;
        if counter == 0 {
          assert found + ([collected + field] + Rapid.Merge(Rapid.Fields(rest), 0, ""))
              == found + [collected + field] + Rapid.Merge(Rapid.Fields(rest), 0, "");
          found := found + [collected + field];
          collected := "";
        } else {
          collected := collected + field + ",";
        }
      }
      stream := rest;
      more, field, rest := GetLine(stream);
    }
    NothingToMerge(counter, collected);
    assert found + [] == found;
    values := Present(found);
  }

  lemma NothingJoined()
    ensures Rapid.Join([]) == ""
  {
  }

  ghost function Reprs(symbols: seq<RAPIDSymbol>): (r: set<object>)
    ensures forall i :: 0 <= i < |symbols| ==> symbols[i].Repr <= r
  {
    if symbols == [] then {} else symbols[0].Repr + Reprs(symbols[1..])
  }

  /** Symbols other than numbers print and read none. */
  const NO_FORMAT: Rapid.Format := Rapid.Format(_ => "", (_, number) => number)

  class RAPIDSymbol {
    const kind: Kind
    const components: seq<RAPIDSymbol>
    var boolValue: bool
    const format: Rapid.Format
    var numValue: real
    var stringValue: string
    ghost const Repr: set<object>

    /** A tree: no component is part of another one. */
    ghost predicate Valid()
      decreases Repr
    {
      && this in Repr
      && (forall i :: 0 <= i < |components| ==>
            components[i].Repr <= Repr - {this} && components[i].Repr < Repr && components[i].Valid())
      && (forall i, j :: 0 <= i < j < |components| ==> components[i].Repr !! components[j].Repr)
    }

    ghost function View(): Rapid.Symbol
      requires Valid()
      reads Repr
      decreases Repr
    {
      match kind
      case BoolAtom => Rapid.Bool(boolValue)
      case NumAtom => Rapid.Num(format, numValue)
      case StringAtom => Rapid.Text(stringValue)
      case RecordOf(typeName) =>
        Rapid.Record(typeName, seq(|components|, i requires 0 <= i < |components| reads Repr => components[i].View()))
    }

    constructor Bool(value: bool)
      ensures Valid() && fresh(Repr) && View() == Rapid.Bool(value)
    {
      kind, components, boolValue, numValue, stringValue := BoolAtom, [], value, 0.0, "";
      format := NO_FORMAT;
      Repr := {this};
    }

    constructor Num(format: Rapid.Format, number: real)
      ensures Valid() && fresh(Repr) && View() == Rapid.Num(format, number)
    {
      kind, this.format, components, boolValue, numValue, stringValue := NumAtom, format, [], false, number, "";
      Repr := {this};
    }

    constructor Text(text: string)
      ensures Valid() && fresh(Repr) && View() == Rapid.Text(text)
    {
      kind, components, boolValue, numValue, stringValue := StringAtom, [], false, 0.0, text;
      format := NO_FORMAT;
      Repr := {this};
    }

    constructor Record(typeName: string, components: seq<RAPIDSymbol>)
      requires forall i :: 0 <= i < |components| ==> components[i].Valid()
      requires forall i, j :: 0 <= i < j < |components| ==> components[i].Repr !! components[j].Repr
      ensures Valid() && View().Record? && View().typeName == typeName && |View().components| == |components|
      ensures forall i :: 0 <= i < |components| ==> View().components[i] == components[i].View()
    {
      kind, this.components := RecordOf(typeName), components;
      format, boolValue, numValue, stringValue := NO_FORMAT, false, 0.0, "";
      Repr := {this} + Reprs(components);
      new;
      assert forall i :: 0 <= i < |components| ==> this in Repr && this !in components[i].Repr;
    }

    method ConstructString() returns (s: string)
      requires Valid()
      ensures s == Rapid.Print(View())
      decreases Repr, 1
    {
      match kind
      case BoolAtom => s := if boolValue then Rapid.RAPID_TRUE else Rapid.RAPID_FALSE;
      case NumAtom =>
        s := "9000000000";
        if numValue != Rapid.LARGEST {
          s := format.write(numValue);
        }
      case StringAtom => s := "\"" + stringValue + "\"";
      case RecordOf(_) => s := ConstructRecord();
    }

    method ConstructRecord() returns (s: string)
      requires Valid() && kind.RecordOf?
      ensures s == "[" + Rapid.Join(Rapid.Prints(View().components)) + "]"
      decreases Repr, 0
    {
      hide Rapid.Join, Rapid.Prints, Rapid.Print;
      ghost var prints := Rapid.Prints(View().components);
      s := "[";
      var i := 0;
      NothingJoined();
      while i < |components|
        invariant 0 <= i <= |components|
        invariant s == "[" + Rapid.Join(prints[..i]) + (if 0 < i < |components| then "," else "")
      {
        var part := components[i].ConstructString();
        assert prints[..i + 1] == prints[..i] + [part];
        JoinAppends(prints[..i], part);
        s := s + part;
        if i != |components| - 1 {
          s := s + ",";
        }
        i := i + 1;
      }
      assert prints[..i] == prints;
      s := s + "]";
    }

    /** Returns whether no exception occurs; after one, nothing is said about the value. */
    method ParseString(text: string) returns (success: bool)
      requires Valid()
      modifies Repr
      ensures success == Rapid.Parse(old(View()), text).Present?
      ensures success ==> View() == Rapid.Parse(old(View()), text).value
      decreases Repr, 1
    {
      success := true;
      match kind
      case BoolAtom => boolValue := text == Rapid.RAPID_TRUE;
      case NumAtom => numValue := format.read(text, numValue);
      case StringAtom =>
        var unquoted := Rapid.Unquote(text);
        if unquoted.Absent? {
          return false;
        }
        stringValue := Rapid.ReadWord(unquoted.value, stringValue);
      case RecordOf(_) =>
        var substrings := ExtractDelimitedSubstrings(text);
        if substrings.Absent? {
          return false;
        }
        if |components| == |substrings.value| {
          success := ParseComponents(substrings.value);
        }
    }

    method ParseComponents(pieces: seq<string>) returns (success: bool)
      requires Valid() && kind.RecordOf? && |components| == |pieces|
      modifies Repr
      ensures success == Rapid.ParseAll(old(View()).components, pieces).Present?
      ensures success ==> View() == Rapid.Record(kind.typeName, Rapid.ParseAll(old(View()).components, pieces).value)
      decreases Repr, 0
    {
      ghost var before := View().components;
      success := true;
      var i := 0;
      while i < |components| && success
        invariant 0 <= i <= |components|
        invariant success ==> forall k :: 0 <= k < i ==>
                  Rapid.Parse(before[k], pieces[k]) == Present(components[k].View())
        invariant success ==> forall k :: i <= k < |components| ==> components[k].View() == before[k]
        invariant !success ==> exists k :: 0 <= k < |before| && Rapid.Parse(before[k], pieces[k]) == Absent
      {
        success := components[i].ParseString(pieces[i]);
        i := i + 1;
      }
    }

    /** `operator=`. */
    method Assign(other: RAPIDSymbol) returns (success: bool)
      requires Valid() && other.Valid() && kind.RecordOf? && other.kind.RecordOf?
      requires this == other || Repr !! other.Repr
      modifies Repr
      ensures this == other ==> success && View() == old(View())
      ensures this != other ==> success == Rapid.Assign(old(View()), other.View()).Present?
      ensures this != other && success ==> View() == Rapid.Assign(old(View()), other.View()).value
      ensures this != other ==> other.View() == old(other.View())
    {
      hide Rapid.Print, Rapid.Parse, Rapid.ParseAll;
      success := true;
      if this != other && kind.typeName == other.kind.typeName && |components| == |other.components| {
        success := AssignComponents(other);
      }
    }

    method AssignComponents(other: RAPIDSymbol) returns (success: bool)
      requires Valid() && other.Valid() && kind.RecordOf? && other.kind.RecordOf?
      requires Repr !! other.Repr && |components| == |other.components|
      modifies Repr
      ensures other.View() == old(other.View())
      ensures success == Rapid.ParseAll(old(View()).components, Rapid.Prints(other.View().components)).Present?
      ensures success ==>
        View() == Rapid.Record(kind.typeName,
                               Rapid.ParseAll(old(View()).components, Rapid.Prints(other.View().components)).value)
    {
      hide Rapid.Print, Rapid.Prints, Rapid.Parse, Rapid.ParseAll;
      ghost var before, prints := View().components, Rapid.Prints(other.View().components);
      success := true;
      var i := 0;
      while i < |components| && success
        invariant 0 <= i <= |components|
        invariant other.View() == old(other.View())
        invariant success ==> forall k :: 0 <= k < i ==>
                  Rapid.Parse(before[k], prints[k]) == Present(components[k].View())
        invariant success ==> forall k :: i <= k < |components| ==> components[k].View() == before[k]
        invariant !success ==> exists k :: 0 <= k < |before| && Rapid.Parse(before[k], prints[k]) == Absent
      {
        var printed := other.components[i].ConstructString();
        assert printed == prints[i];
        success := components[i].ParseString(printed);
        i := i + 1;
      }
    }
  }
}
