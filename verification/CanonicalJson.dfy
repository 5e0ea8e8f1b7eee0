/**
 The canonical JSON printer on which every stored proof hash rests, an independent reader of its
 output, and the round trip between them. Numbers are integers; keys are printed in an arbitrary
 total order, as the database collation decides it.
 */
module CanonicalJson {
  import opened Prelude

  /** A jsonb value: an object is a finite map, so key insertion order is not part of it. */
  datatype Json =
    | Null
    | Bool(b: bool)
    | Num(n: int)
    | Str(s: string)
    | Arr(items: seq<Json>)
    | Obj(fields: map<string, Json>)

  type KeyOrder = (string, string) -> bool

  ghost predicate TotalOrder(leq: KeyOrder) {
    && (forall a, b :: leq(a, b) || leq(b, a))
    && (forall a, b :: leq(a, b) && leq(b, a) ==> a == b)
    && (forall a, b, c :: leq(a, b) && leq(b, c) ==> leq(a, c))
  }

  // ---------------------------------------------------------------- keys in order

  ghost predicate IsLeast(leq: KeyOrder, keys: set<string>, k: string) {
    k in keys && forall x :: x in keys ==> leq(k, x)
  }

  lemma {:induction false} LeastExists(leq: KeyOrder, keys: set<string>)
    requires TotalOrder(leq) && keys != {}
    ensures exists k :: IsLeast(leq, keys, k)
    decreases |keys|
  {
    var a :| a in keys;
    if keys - {a} == {} {
      assert keys == {a};
      assert IsLeast(leq, keys, a);
    } else {
      LeastExists(leq, keys - {a});
      var k :| IsLeast(leq, keys - {a}, k);
      assert IsLeast(leq, keys, if leq(a, k) then a else k);
    }
  }

  /** ORDER BY key. */
  ghost function Ordered(leq: KeyOrder, keys: set<string>): (ks: seq<string>)
    requires TotalOrder(leq)
    ensures forall k :: k in ks <==> k in keys
    decreases |keys|
  {
    if keys == {} then []
    else
      LeastExists(leq, keys);
      var k :| IsLeast(leq, keys, k);
      [k] + Ordered(leq, keys - {k})
  }

  lemma {:induction false} OrderedIsSorted(leq: KeyOrder, keys: set<string>)
    requires TotalOrder(leq)
    ensures var ks := Ordered(leq, keys);
      forall i, j :: 0 <= i < j < |ks| ==> ks[i] != ks[j] && leq(ks[i], ks[j])
    decreases |keys|
  {
    var ks := Ordered(leq, keys);
    if keys != {} {
      var k := ks[0];
      LeastExists(leq, keys);
      OrderedIsSorted(leq, keys - {k});
      assert ks[1..] == Ordered(leq, keys - {k});
      forall j | 0 < j < |ks| ensures ks[0] != ks[j] && leq(ks[0], ks[j]) {
        assert ks[j] == ks[1..][j - 1] && ks[j] in keys - {k};
      }
    }
  }

  // ---------------------------------------------------------------- scalars

  function Digit(d: int): char
    requires 0 <= d < 10
  {
    '0' + d as char
  }

  function PrintNat(n: nat): string {
    if n < 10 then [Digit(n)] else PrintNat(n / 10) + [Digit(n % 10)]
  }

  function PrintInt(n: int): string {
    if n < 0 then "-" + PrintNat(-n) else PrintNat(n)
  }

  function HexDigit(d: int): char
    requires 0 <= d < 16
  {
    if d < 10 then '0' + d as char else 'a' + (d - 10) as char
  }

  /** The escapes of the database's JSON text output; other characters are printed as they are. */
  function Escape(c: char): string {
    if c == '\"' then "\\\""
    else if c == '\\' then "\\\\"
    else if c == '\n' then "\\n"
    else if c == '\r' then "\\r"
    else if c == '\t' then "\\t"
    else if c as int == 8 then "\\b"
    else if c as int == 12 then "\\f"
    else if c as int < 32 then "\\u00" + [HexDigit(c as int / 16), HexDigit(c as int % 16)]
    else [c]
  }

  function EscapeAll(s: string): string {
    if s == "" then "" else Escape(s[0]) + EscapeAll(s[1..])
  }

  function PrintString(s: string): string {
    "\"" + EscapeAll(s) + "\""
  }

  // ---------------------------------------------------------------- the printer

  ghost function Print(leq: KeyOrder, j: Json): string
    requires TotalOrder(leq)
    decreases j, 0
  {
    match j
    case Null => "null"
    case Bool(b) => if b then "true" else "false"
    case Num(n) => PrintInt(n)
    case Str(s) => PrintString(s)
    case Arr(items) => "[" + PrintItems(leq, items) + "]"
    case Obj(fields) => "{" + PrintFields(leq, j, Ordered(leq, fields.Keys)) + "}"
  }

  ghost function PrintItems(leq: KeyOrder, items: seq<Json>): string
    requires TotalOrder(leq)
    decreases items, 0
  {
    if |items| == 0 then ""
    else Print(leq, items[0]) + if |items| == 1 then "" else "," + PrintItems(leq, items[1..])
  }

  ghost function PrintFields(leq: KeyOrder, j: Json, keys: seq<string>): string
    requires TotalOrder(leq) && j.Obj? && forall k :: k in keys ==> k in j.fields
    decreases j, 0, |keys|
  {
    if |keys| == 0 then ""
    else PrintString(keys[0]) + ":" + Print(leq, j.fields[keys[0]])
         + if |keys| == 1 then "" else "," + PrintFields(leq, j, keys[1..])
  }

  // ---------------------------------------------------------------- an independent reader

  datatype Read<+T> = Fail | Got(value: T, rest: string)

  predicate IsDigit(c: char) { '0' <= c <= '9' }

  function ReadNat(s: string, acc: nat): (r: Read<nat>)
    ensures r.Got? && |r.rest| <= |s|
  {
    if s != "" && IsDigit(s[0]) then ReadNat(s[1..], 10 * acc + (s[0] - '0') as int) else Got(acc, s)
  }

  function HexValue(c: char): Option<int> {
    if '0' <= c <= '9' then Some((c - '0') as int)
    else if 'a' <= c <= 'f' then Some(10 + (c - 'a') as int)
    else None
  }

  /** One escape sequence after its backslash. */
  function ReadEscape(s: string): (r: Read<char>)
    ensures r.Got? ==> |r.rest| < |s|
  {
    if s == "" then Fail
    else if s[0] == '\"' then Got('\"', s[1..])
    else if s[0] == '\\' then Got('\\', s[1..])
    else if s[0] == 'n' then Got('\n', s[1..])
    else if s[0] == 'r' then Got('\r', s[1..])
    else if s[0] == 't' then Got('\t', s[1..])
    else if s[0] == 'b' then Got(8 as char, s[1..])
    else if s[0] == 'f' then Got(12 as char, s[1..])
    else if |s| >= 5 && s[..3] == "u00" && HexValue(s[3]).Some? && HexValue(s[4]).Some? then
      Got((16 * HexValue(s[3]).value + HexValue(s[4]).value) as char, s[5..])
    else Fail
  }

  /** The characters up to and including the closing quotation mark. */
  function ReadString(s: string): (r: Read<string>)
    ensures r.Got? ==> |r.rest| < |s|
    decreases |s|
  {
    if s == "" then Fail
    else if s[0] == '\"' then Got("", s[1..])
    else if s[0] == '\\' then
      match ReadEscape(s[1..])
      case Fail => Fail
      case Got(c, rest) =>
        match ReadString(rest)
        case Fail => Fail
        case Got(cs, rest') => Got([c] + cs, rest')
    else
      match ReadString(s[1..])
      case Fail => Fail
      case Got(cs, rest) => Got([s[0]] + cs, rest)
  }

  function ReadNumber(s: string): (r: Read<Json>)
    ensures r.Got? ==> |r.rest| < |s|
  {
    if s != "" && IsDigit(s[0]) then
      var r := ReadNat(s[1..], (s[0] - '0') as int); Got(Num(r.value), r.rest)
    else if |s| > 1 && s[0] == '-' && IsDigit(s[1]) then
      var r := ReadNat(s[2..], (s[1] - '0') as int); Got(Num(-(r.value as int)), r.rest)
    else Fail
  }

  function ReadKeyword(s: string, word: string, value: Json): (r: Read<Json>)
    requires word != ""
    ensures r.Got? ==> |r.rest| < |s|
  {
    if word <= s then Got(value, s[|word|..]) else Fail
  }

  function ReadValue(s: string): (r: Read<Json>)
    ensures r.Got? ==> |r.rest| < |s|
    decreases |s|, 0
  {
    if s == "" then Fail
    else if s[0] == 'n' then ReadKeyword(s, "null", Null)
    else if s[0] == 't' then ReadKeyword(s, "true", Bool(true))
    else if s[0] == 'f' then ReadKeyword(s, "false", Bool(false))
    else if s[0] == '\"' then
      match ReadString(s[1..])
      case Fail => Fail
      case Got(cs, rest) => Got(Str(cs), rest)
    else if s[0] == '[' then
      if |s| > 1 && s[1] == ']' then Got(Arr([]), s[2..])
      else
        match ReadItems(s[1..])
        case Fail => Fail
        case Got(items, rest) => Got(Arr(items), rest)
    else if s[0] == '{' then
      if |s| > 1 && s[1] == '}' then Got(Obj(map[]), s[2..])
      else
        match ReadFields(s[1..])
        case Fail => Fail
        case Got(fields, rest) => Got(Obj(fields), rest)
    else ReadNumber(s)
  }

  /** Comma-separated values up to and including the closing bracket. */
  function ReadItems(s: string): (r: Read<seq<Json>>)
    ensures r.Got? ==> |r.rest| < |s|
    decreases |s|, 1
  {
    match ReadValue(s)
    case Fail => Fail
    case Got(v, rest) =>
      if rest != "" && rest[0] == ']' then Got([v], rest[1..])
      else if rest != "" && rest[0] == ',' then
        match ReadItems(rest[1..])
        case Fail => Fail
        case Got(vs, rest') => Got([v] + vs, rest')
      else Fail
  }

  /** Comma-separated members up to and including the closing brace. */
  function ReadFields(s: string): (r: Read<map<string, Json>>)
    ensures r.Got? ==> |r.rest| < |s|
    decreases |s|, 1
  {
    if s == "" || s[0] != '\"' then Fail
    else
      match ReadString(s[1..])
      case Fail => Fail
      case Got(k, colon) =>
        if colon == "" || colon[0] != ':' then Fail
        else
          match ReadValue(colon[1..])
          case Fail => Fail
          case Got(v, rest) =>
            if rest != "" && rest[0] == '}' then Got(map[k := v], rest[1..])
            else if rest != "" && rest[0] == ',' then
              match ReadFields(rest[1..])
              case Fail => Fail
              case Got(fields, rest') => Got(fields[k := v], rest')
            else Fail
  }

  // ---------------------------------------------------------------- round trip

  predicate NoDigitAhead(s: string) { s == "" || !IsDigit(s[0]) }

  lemma {:induction false} PrintNatReads(n: nat, rest: string)
    requires NoDigitAhead(rest)
    ensures PrintNat(n) != "" && IsDigit(PrintNat(n)[0])
    ensures ReadNat(PrintNat(n)[1..] + rest, (PrintNat(n)[0] - '0') as int) == Got(n, rest)
  {
    PrintNatSteps(n, rest);
  }

  /** Reading the digits of n and whatever follows arrives at n with the rest still ahead. */
  lemma {:induction false} PrintNatSteps(n: nat, rest: string)
    ensures PrintNat(n) != "" && IsDigit(PrintNat(n)[0])
    ensures ReadNat(PrintNat(n)[1..] + rest, (PrintNat(n)[0] - '0') as int) == ReadNat(rest, n)
  {
    if n < 10 {
      assert PrintNat(n)[1..] + rest == rest;
    } else {
      var d := [Digit(n % 10)];
      PrintNatSteps(n / 10, d + rest);
      assert PrintNat(n)[1..] + rest == PrintNat(n / 10)[1..] + (d + rest);
      assert (d + rest)[1..] == rest;
    }
  }

  lemma {:induction false} EscapeReads(c: char, rest: string)
    ensures ReadString(Escape(c) + rest) ==
      match ReadString(rest) case Fail => Fail case Got(cs, r) => Got([c] + cs, r)
  {
    var e := Escape(c);
    if e[0] != '\\' {
      assert (e + rest)[1..] == rest;
    } else {
      assert (e + rest)[1..] == e[1..] + rest;
      assert (e[1..] + rest)[|e| - 1..] == rest;
      if |e| > 2 {
        assert (e[1..] + rest)[..3] == "u00";
      }
    }
  }

  lemma {:induction false} EscapeAllReads(s: string, rest: string)
    ensures ReadString(EscapeAll(s) + "\"" + rest) == Got(s, rest)
    decreases |s|
  {
    if s == "" {
      assert EscapeAll(s) + "\"" + rest == "\"" + rest;
    } else {
      EscapeAllReads(s[1..], rest);
      EscapeReads(s[0], EscapeAll(s[1..]) + "\"" + rest);
      assert [s[0]] + s[1..] == s;
      Reassociate(Escape(s[0]), EscapeAll(s[1..]), "\"", rest);
    }
  }

  lemma Reassociate(a: string, b: string, c: string, d: string)
    ensures a + b + c + d == a + (b + c + d)
  {}

  lemma PrintStringReads(s: string, rest: string)
    ensures (PrintString(s) + rest)[0] == '\"'
    ensures ReadString((PrintString(s) + rest)[1..]) == Got(s, rest)
  {
    EscapeAllReads(s, rest);
    assert (PrintString(s) + rest)[1..] == EscapeAll(s) + "\"" + rest;
  }

  lemma NumberReads(n: int, rest: string)
    requires NoDigitAhead(rest)
    ensures ReadNumber(PrintInt(n) + rest) == Got(Num(n), rest)
    ensures PrintInt(n) != "" && (PrintInt(n)[0] == '-' || IsDigit(PrintInt(n)[0]))
  {
    var digits := PrintNat(if n < 0 then -n else n);
    PrintNatReads(if n < 0 then -n else n, rest);
    if n < 0 { SignedReads(digits, rest); } else { UnsignedReads(digits, rest); }
  }

  lemma UnsignedReads(digits: string, rest: string)
    requires digits != "" && IsDigit(digits[0])
    ensures ReadNumber(digits + rest) ==
      var r := ReadNat(digits[1..] + rest, (digits[0] - '0') as int); Got(Num(r.value), r.rest)
  {
    assert (digits + rest)[0] == digits[0] && (digits + rest)[1..] == digits[1..] + rest;
  }

  lemma SignedReads(digits: string, rest: string)
    requires digits != "" && IsDigit(digits[0])
    ensures ReadNumber("-" + digits + rest) ==
      var r := ReadNat(digits[1..] + rest, (digits[0] - '0') as int); Got(Num(-(r.value as int)), r.rest)
  {
    var text := "-" + digits + rest;
    assert text[0] == '-' && text[1] == digits[0] && text[2..] == digits[1..] + rest;
  }

  lemma KeywordReads(word: string, value: Json, rest: string)
    requires word != ""
    ensures ReadKeyword(word + rest, word, value) == Got(value, rest)
  {
    assert (word + rest)[..|word|] == word && (word + rest)[|word|..] == rest;
  }

  lemma PrintScalarReads(leq: KeyOrder, j: Json, rest: string)
    requires TotalOrder(leq) && NoDigitAhead(rest) && !j.Arr? && !j.Obj?
    ensures ReadValue(Print(leq, j) + rest) == Got(j, rest)
  {
    var text := Print(leq, j) + rest;
    match j
    case Null => KeywordReads("null", j, rest); assert text[0] == 'n';
    case Bool(b) =>
      KeywordReads(if b then "true" else "false", j, rest);
      assert text[0] == if b then 't' else 'f';
    case Num(n) => NumberReads(n, rest); assert text[0] == PrintInt(n)[0];
    case Str(s) => PrintStringReads(s, rest);
  }

  lemma ArrayStep(s: string, items: seq<Json>, rest: string)
    requires s != "" && s[0] != ']' && ReadItems(s) == Got(items, rest)
    ensures ReadValue("[" + s) == Got(Arr(items), rest)
  {
    assert ("[" + s)[1..] == s;
  }

  lemma ObjectStep(s: string, fields: map<string, Json>, rest: string)
    requires s != "" && s[0] != '}' && ReadFields(s) == Got(fields, rest)
    ensures ReadValue("{" + s) == Got(Obj(fields), rest)
  {
    assert ("{" + s)[1..] == s;
  }

  lemma ArrayReads(body: string, items: seq<Json>, rest: string)
    requires items == [] ==> body == ""
    requires items != [] ==> body != "" && body[0] != ']' && ReadItems(body + "]" + rest) == Got(items, rest)
    ensures ReadValue("[" + body + "]" + rest) == Got(Arr(items), rest)
  {
    if items == [] {
      assert "[" + body + "]" + rest == "[]" + rest;
    } else {
      ArrayStep(body + "]" + rest, items, rest);
      assert "[" + body + "]" + rest == "[" + (body + "]" + rest);
    }
  }

  lemma ObjectReads(body: string, fields: map<string, Json>, rest: string)
    requires fields == map[] ==> body == ""
    requires fields != map[] ==> body != "" && body[0] != '}' && ReadFields(body + "}" + rest) == Got(fields, rest)
    ensures ReadValue("{" + body + "}" + rest) == Got(Obj(fields), rest)
  {
    if fields == map[] {
      var text := "{" + body + "}" + rest;
      assert text[0] == '{' && text[1] == '}' && text[2..] == rest;
    } else {
      ObjectStep(body + "}" + rest, fields, rest);
      assert "{" + body + "}" + rest == "{" + (body + "}" + rest);
    }
  }

  /** Reading the canonical text of a value, whatever follows it, gives back the value. */
  lemma {:induction false} PrintReads(leq: KeyOrder, j: Json, rest: string)
    requires TotalOrder(leq) && NoDigitAhead(rest)
    ensures ReadValue(Print(leq, j) + rest) == Got(j, rest)
    decreases j, 0
  {
    match j
    case Arr(items) =>
      if items != [] { PrintItemsReads(leq, items, rest); }
      ArrayReads(PrintItems(leq, items), items, rest);
    case Obj(fields) =>
      var keys := Ordered(leq, fields.Keys);
      if keys != [] { PrintFieldsReads(leq, j, keys, rest); }
      assert Members(fields, keys) == fields;
      assert keys == [] ==> fields == map[];
      ObjectReads(PrintFields(leq, j, keys), fields, rest);
    case _ => PrintScalarReads(leq, j, rest);
  }

  /** The sub-object of the listed keys. */
  ghost function Members(fields: map<string, Json>, keys: seq<string>): map<string, Json>
    requires forall k :: k in keys ==> k in fields
  {
    map k | k in keys :: fields[k]
  }

  lemma MembersStep(fields: map<string, Json>, keys: seq<string>)
    requires keys != [] && forall k :: k in keys ==> k in fields
    ensures Members(fields, keys) == Members(fields, keys[1..])[keys[0] := fields[keys[0]]]
  {
    assert keys == [keys[0]] + keys[1..];
  }

  /** A printed value starts with a character that closes nothing. */
  lemma {:induction false} PrintOpens(leq: KeyOrder, j: Json)
    requires TotalOrder(leq)
    ensures Print(leq, j) != "" && Print(leq, j)[0] != ']' && Print(leq, j)[0] != '}'
  {
    if j.Num? { PrintNatSteps(if j.n < 0 then -j.n else j.n, ""); }
  }

  /** One step of the item and member readers, for a value that was read from the front. */
  lemma ItemsStep(text: string, v: Json, tail: string)
    requires ReadValue(text) == Got(v, tail) && tail != ""
    ensures tail[0] == ']' ==> ReadItems(text) == Got([v], tail[1..])
    ensures tail[0] == ',' && ReadItems(tail[1..]).Got? ==>
      ReadItems(text) == Got([v] + ReadItems(tail[1..]).value, ReadItems(tail[1..]).rest)
  {}

  lemma FieldsStep(text: string, k: string, colon: string, v: Json, tail: string)
    requires text != "" && text[0] == '\"' && ReadString(text[1..]) == Got(k, colon)
    requires colon != "" && colon[0] == ':' && ReadValue(colon[1..]) == Got(v, tail) && tail != ""
    ensures tail[0] == '}' ==> ReadFields(text) == Got(map[k := v], tail[1..])
    ensures tail[0] == ',' && ReadFields(tail[1..]).Got? ==>
      ReadFields(text) == Got(ReadFields(tail[1..]).value[k := v], ReadFields(tail[1..]).rest)
  {}

  lemma Regroup(name: string, value: string, others: string, rest: string)
    ensures name + ":" + value + others + "}" + rest == name + (":" + (value + (others + "}" + rest)))
  {}

  lemma {:induction false} PrintItemsReads(leq: KeyOrder, items: seq<Json>, rest: string)
    requires TotalOrder(leq) && items != []
    ensures ReadItems(PrintItems(leq, items) + "]" + rest) == Got(items, rest)
    ensures PrintItems(leq, items) != "" && PrintItems(leq, items)[0] != ']'
    decreases items, 1
  {
    var first := Print(leq, items[0]);
    PrintOpens(leq, items[0]);
    var more := if |items| == 1 then "" else PrintItems(leq, items[1..]) + "]" + rest;
    var tail := if |items| == 1 then "]" + rest else "," + more;
    assert PrintItems(leq, items) + "]" + rest == first + tail;
    PrintReads(leq, items[0], tail);
    ItemsStep(first + tail, items[0], tail);
    if |items| == 1 {
      assert tail[1..] == rest && items == [items[0]];
    } else {
      PrintItemsReads(leq, items[1..], rest);
      assert tail[1..] == more && items == [items[0]] + items[1..];
    }
  }

  lemma {:induction false} PrintFieldsReads(leq: KeyOrder, j: Json, keys: seq<string>, rest: string)
    requires TotalOrder(leq) && j.Obj? && keys != [] && forall k :: k in keys ==> k in j.fields
    ensures ReadFields(PrintFields(leq, j, keys) + "}" + rest) == Got(Members(j.fields, keys), rest)
    ensures PrintFields(leq, j, keys) != "" && PrintFields(leq, j, keys)[0] == '\"'
    decreases j, 0, |keys|
  {
    var k, v := keys[0], j.fields[keys[0]];
    var others := if |keys| == 1 then "" else "," + PrintFields(leq, j, keys[1..]);
    var tail := others + "}" + rest;
    PrintFieldsShape(leq, j, keys, rest);
    MembersStep(j.fields, keys);
    PrintReads(leq, v, tail);
    if |keys| == 1 {
      assert Members(j.fields, keys[1..]) == map[];
    } else {
      PrintFieldsReads(leq, j, keys[1..], rest);
    }
    MemberReads(k, v, Print(leq, v), tail, Members(j.fields, keys[1..]), rest);
  }

  /** The first member is split off the printed ones. */
  lemma PrintFieldsShape(leq: KeyOrder, j: Json, keys: seq<string>, rest: string)
    requires TotalOrder(leq) && j.Obj? && keys != [] && forall k :: k in keys ==> k in j.fields
    ensures var others := if |keys| == 1 then "" else "," + PrintFields(leq, j, keys[1..]); var tail := others + "}" + rest;
      && PrintFields(leq, j, keys) != "" && PrintFields(leq, j, keys)[0] == '\"'
      && PrintFields(leq, j, keys) + "}" + rest == PrintString(keys[0]) + (":" + (Print(leq, j.fields[keys[0]]) + tail))
      && tail != "" && !IsDigit(tail[0])
      && (|keys| == 1 ==> tail[0] == '}' && tail[1..] == rest)
      && (|keys| > 1 ==> tail[0] == ',' && tail[1..] == PrintFields(leq, j, keys[1..]) + "}" + rest)
  {
    var others := if |keys| == 1 then "" else "," + PrintFields(leq, j, keys[1..]);
    assert PrintFields(leq, j, keys) == PrintString(keys[0]) + ":" + Print(leq, j.fields[keys[0]]) + others;
    MemberShape(PrintString(keys[0]), Print(leq, j.fields[keys[0]]), others, rest);
  }

  lemma MemberShape(name: string, value: string, others: string, rest: string)
    requires name != "" && (others == "" || others[0] == ',')
    ensures var tail := others + "}" + rest;
      && name + ":" + value + others + "}" + rest == name + (":" + (value + tail))
      && name + ":" + value + others != "" && (name + ":" + value + others)[0] == name[0]
      && tail != "" && !IsDigit(tail[0])
      && (others == "" ==> tail[0] == '}' && tail[1..] == rest)
      && (others != "" ==> tail[0] == ',' && tail[1..] == others[1..] + "}" + rest)
  {
    Regroup(name, value, others, rest);
  }

  lemma MemberReads(k: string, v: Json, value: string, tail: string, more: map<string, Json>, rest: string)
    requires tail != "" && ReadValue(value + tail) == Got(v, tail)
    requires || (tail[0] == '}' && more == map[] && tail[1..] == rest)
             || (tail[0] == ',' && ReadFields(tail[1..]) == Got(more, rest))
    ensures ReadFields(PrintString(k) + (":" + (value + tail))) == Got(more[k := v], rest)
  {
    var colon := ":" + (value + tail);
    PrintStringReads(k, colon);
    assert colon[1..] == value + tail;
    FieldsStep(PrintString(k) + colon, k, colon, v, tail);
  }

  // ---------------------------------------------------------------- main results

  /** The printer can be inverted. */
  lemma RoundTrip(leq: KeyOrder, j: Json)
    requires TotalOrder(leq)
    ensures ReadValue(Print(leq, j)) == Got(j, "")
  {
    PrintReads(leq, j, "");
    assert Print(leq, j) + "" == Print(leq, j);
  }

  /** Equal canonical texts are equal values. */
  lemma Injective(leq: KeyOrder, a: Json, b: Json)
    requires TotalOrder(leq) && Print(leq, a) == Print(leq, b)
    ensures a == b
  {
    RoundTrip(leq, a);
    RoundTrip(leq, b);
  }

  /** With a hash that does not collide, equal proof hashes mean equal proofs. */
  lemma HashBindsProof<H(!new)>(leq: KeyOrder, hash: string -> H, a: Json, b: Json)
    requires TotalOrder(leq) && forall x, y :: hash(x) == hash(y) ==> x == y
    ensures hash(Print(leq, a)) == hash(Print(leq, b)) <==> a == b
  {
    if hash(Print(leq, a)) == hash(Print(leq, b)) { Injective(leq, a, b); }
  }

  /** A text that two printed values start with, followed by no digit, is one and the same value. */
  lemma PrefixFree(leq: KeyOrder, a: Json, b: Json, restA: string, restB: string)
    requires TotalOrder(leq) && NoDigitAhead(restA) && NoDigitAhead(restB)
    requires Print(leq, a) + restA == Print(leq, b) + restB
    ensures a == b && restA == restB
  {
    PrintReads(leq, a, restA);
    PrintReads(leq, b, restB);
  }
}
