/** The adapter's helper library: dotted-quad rendering of an integer, message
    wrapping, date-time formatting, and the create-or-set protocol for state
    objects. Calls into the platform are modelled as the actions they issue. */
module Library {
  import opened Values

  // ---------------------------------------------------------------- getIP

  const Two32: int := 0x1_0000_0000

  /** `number >> 8k` on the 32-bit value of `number`, for the bits that the
      mask 255 keeps afterwards: k divisions by 256 of the low 32 bits. */
  function Shift(number: int, k: nat): (q: nat)
    ensures q < Two32
    decreases k
  {
    if k == 0 then number % Two32 else Shift(number, k - 1) / 256
  }

  /** The k-th byte of the 32-bit value, counting from the least significant. */
  function ShiftMask(number: int, k: nat): (b: nat)
    ensures b < 256
  {
    Shift(number, k) % 256
  }

  /** The four octets of the dotted quad, most significant first. */
  function Octets(number: int): seq<nat> {
    [ShiftMask(number, 3), ShiftMask(number, 2), ShiftMask(number, 1), ShiftMask(number, 0)]
  }

  /** A list of numbers rendered in decimal and joined with dots. */
  function Dotted(parts: seq<nat>): string
    decreases |parts|
  {
    if parts == [] then ""
    else if |parts| == 1 then NatToString(parts[0])
    else NatToString(parts[0]) + "." + Dotted(parts[1..])
  }

  /** `getIP`: pushes the four masked bytes least significant first, reverses
      the array in place and joins it with dots. */
  method GetIP(number: int) returns (ip: string)
    ensures ip == Dotted(Octets(number))
  {
    var parts := new nat[4];
    parts[0] := ShiftMask(number, 0);
    parts[1] := ShiftMask(number, 1);
    parts[2] := ShiftMask(number, 2);
    parts[3] := ShiftMask(number, 3);
    parts[0], parts[3] := parts[3], parts[0];
    parts[1], parts[2] := parts[2], parts[1];
    assert parts[..] == Octets(number);
    ip := Dotted(parts[..]);
  }

  /** The value of four octets read most significant first. */
  function Reassemble(o: seq<nat>): int
    requires |o| == 4
  {
    o[0] * 16777216 + o[1] * 65536 + o[2] * 256 + o[3]
  }

  /** Each octet is a byte, and together they give back the number modulo 2^32. */
  lemma OctetsReassemble(number: int)
    ensures |Octets(number)| == 4
    ensures forall i :: 0 <= i < 4 ==> Octets(number)[i] <= 255
    ensures Reassemble(Octets(number)) == number % Two32
  {
    var u := Shift(number, 0);
    var q1, q2, q3 := Shift(number, 1), Shift(number, 2), Shift(number, 3);
    assert q1 == u / 256 && q2 == q1 / 256 && q3 == q2 / 256;
    assert u == q1 * 256 + u % 256;
    assert q1 == q2 * 256 + q1 % 256;
    assert q2 == q3 * 256 + q2 % 256;
    assert q1 < 16777216 && q2 < 65536 && q3 < 256;
  }

  /** The pieces of `s` between the occurrences of `sep`, as `split` gives them. */
  function Split(s: string, sep: char): (r: seq<string>)
    ensures |r| >= 1
    decreases |s|
  {
    if s == [] then [""]
    else
      var rest := Split(s[1..], sep);
      if s[0] == sep then [""] + rest else [[s[0]] + rest[0]] + rest[1..]
  }

  lemma {:induction false} SplitWithout(a: string, sep: char)
    requires sep !in a
    ensures Split(a, sep) == [a]
    decreases |a|
  {
    if a != [] {
      SplitWithout(a[1..], sep);
      assert [a[0]] + a[1..] == a;
    }
  }

  lemma {:induction false} SplitAt(a: string, sep: char, b: string)
    requires sep !in a
    ensures Split(a + [sep] + b, sep) == [a] + Split(b, sep)
    decreases |a|
  {
    var s := a + [sep] + b;
    if a == [] {
      assert s[1..] == b;
    } else {
      assert s[1..] == a[1..] + [sep] + b;
      SplitAt(a[1..], sep, b);
      assert [a[0]] + a[1..] == a;
    }
  }

  lemma DigitsWithoutDot(s: string)
    requires AllDigits(s)
    ensures '.' !in s
  {
  }

  /** Splitting a joined list of numbers at the dots gives back their
      renderings. */
  lemma {:induction false} SplitDotted(parts: seq<nat>)
    requires parts != []
    ensures Split(Dotted(parts), '.') == seq(|parts|, i requires 0 <= i < |parts| => NatToString(parts[i]))
    decreases |parts|
  {
    var head := NatToString(parts[0]);
    NatToStringDigits(parts[0]);
    DigitsWithoutDot(head);
    var all := seq(|parts|, i requires 0 <= i < |parts| => NatToString(parts[i]));
    if |parts| == 1 {
      SplitWithout(head, '.');
      assert all == [head];
    } else {
      var rest := parts[1..];
      assert Dotted(parts) == head + ['.'] + Dotted(rest);
      SplitAt(head, '.', Dotted(rest));
      SplitDotted(rest);
      var tail := seq(|rest|, i requires 0 <= i < |rest| => NatToString(rest[i]));
      assert Split(Dotted(parts), '.') == [head] + tail;
      assert all == [head] + tail;
    }
  }

  /** Reading a dotted quad back: four decimal fields. */
  function ParseQuad(ip: string): Option<seq<nat>> {
    var fields := Split(ip, '.');
    if |fields| == 4 && forall i :: 0 <= i < 4 ==> AllDigits(fields[i])
    then Some([ParseNat(fields[0]), ParseNat(fields[1]), ParseNat(fields[2]), ParseNat(fields[3])])
    else None
  }

  /** The string `getIP` returns reads back as its octets, and so as the
      number modulo 2^32. */
  lemma GetIPRoundTrip(number: int)
    ensures ParseQuad(Dotted(Octets(number))).Some?
    ensures ParseQuad(Dotted(Octets(number))).value == Octets(number)
    ensures Reassemble(ParseQuad(Dotted(Octets(number))).value) == number % Two32
  {
    var o := Octets(number);
    SplitDotted(o);
    var fields := Split(Dotted(o), '.');
    forall i | 0 <= i < 4 ensures AllDigits(fields[i]) && ParseNat(fields[i]) == o[i] {
      ParseNatToString(o[i]);
    }
    OctetsReassemble(number);
  }

  // ------------------------------------------------------------------ msg

  /** A message handed to the platform's `sendTo`. */
  datatype Message = Message(receiver: string, command: string, payload: Value)

  /** The payload of a message: an object (or null) passes unchanged, any
      other value is wrapped into an object under the key `message`. */
  function Wrap(message: Value): (r: Value)
    ensures TypeOf(r) == "object"
    ensures TypeOf(message) == "object" ==> r == message
    ensures TypeOf(message) != "object" ==> r.Obj? && r.fields.Keys == {"message"} && r.fields["message"] == message
  {
    if TypeOf(message) != "object" then Obj(map["message" := message]) else message
  }

  /** Wrapping a wrapped message changes nothing. */
  lemma WrapIdempotent(message: Value)
    ensures Wrap(Wrap(message)) == Wrap(message)
  {
  }

  /** `msg(receiver, command, message)`; the callback is not modelled. */
  function Msg(receiver: string, command: string, message: Value): (m: Message)
    ensures m.receiver == receiver && m.command == command
    ensures TypeOf(m.payload) == "object"
    ensures m.payload == Wrap(message)
  {
    Message(receiver, command, Wrap(message))
  }

  // ---------------------------------------------------------- getDateTime

  /** What `new Date(timestamp)` reports in the local time zone: `getDate()`,
      `getMonth()` (0-based), `getFullYear()`, `getHours()`, `getMinutes()`,
      `getSeconds()`. */
  datatype DateParts = DateParts(date: nat, month: nat, fullYear: int, hours: nat, minutes: nat, seconds: nat)

  /** The last two characters of `s`, or all of it when shorter. */
  function Last2(s: string): string {
    if |s| < 2 then s else s[|s| - 2..]
  }

  /** A number padded to two characters: a zero is put in front of its
      decimal rendering and the last two characters are kept. */
  function Pad2(x: nat): (r: string)
    ensures |r| == 2
  {
    Last2("0" + NatToString(x))
  }

  /** The padding always gives the last two decimal digits of x, so exactly
      x itself when x is below 100. */
  lemma Pad2Digits(x: nat)
    ensures Pad2(x) == [DigitChar(x / 10 % 10), DigitChar(x % 10)]
    ensures AllDigits(Pad2(x)) && ParseNat(Pad2(x)) == x % 100
  {
    Pad2Chars(x);
    var hi, lo := DigitChar(x / 10 % 10), DigitChar(x % 10);
    ParseTwoDigits(hi, lo);
  }

  lemma Pad2Chars(x: nat)
    ensures Pad2(x) == [DigitChar(x / 10 % 10), DigitChar(x % 10)]
  {
    var d := NatToString(x);
    var s := "0" + d;
    if x >= 10 {
      assert d == NatToString(x / 10) + [DigitChar(x % 10)];
      assert s[|s| - 2] == NatToString(x / 10)[|NatToString(x / 10)| - 1];
    }
  }

  lemma ParseTwoDigits(a: char, b: char)
    requires IsDigit(a) && IsDigit(b)
    ensures ParseNat([a, b]) == DigitValue(a) * 10 + DigitValue(b)
  {
    var t := [a, b];
    assert t[..|t| - 1] == [a] && [a][..0] == [];
    assert ParseNat([a]) == DigitValue(a);
    assert t[|t| - 1] == b;
  }

  /** `getDateTime(timestamp)` as "DD.MM.YYYY hh:mm:ss", or '' for a missing
      or non-positive timestamp. */
  function GetDateTime(timestamp: Option<int>, localTime: int -> DateParts): (r: string)
    ensures r == "" <==> timestamp.None? || timestamp.value <= 0
  {
    if timestamp.None? || timestamp.value <= 0 then ""
    else
      Formatted(localTime(timestamp.value))
  }

  /** The formatting of the reported date parts. */
  function Formatted(d: DateParts): string {
    DateText(Pad2(d.date), Pad2(d.month + 1), IntToString(d.fullYear))
      + TimeText(Pad2(d.hours), Pad2(d.minutes), Pad2(d.seconds))
  }

  /** Day, month and year laid out as "DD.MM.YYYY". */
  function DateText(dd: string, mo: string, y: string): string {
    dd + "." + mo + "." + y
  }

  /** Hours, minutes and seconds laid out as " hh:mm:ss". */
  function TimeText(hh: string, mi: string, ss: string): string {
    " " + hh + ":" + mi + ":" + ss
  }

  /** Where day, month and year sit in the date text. */
  lemma DateFields(dd: string, mo: string, y: string)
    requires |dd| == 2 && |mo| == 2
    ensures var t := DateText(dd, mo, y);
      && |t| == 6 + |y| && t[2] == '.' && t[5] == '.'
      && t[0..2] == dd && t[3..5] == mo && t[6..] == y
  {
    var p := dd + "." + mo + ".";
    assert DateText(dd, mo, y) == p + y;
    Drop(p, y);
    assert (dd + "." + mo)[3..] == mo by { Drop(dd + ".", mo); }
  }

  /** Where hours, minutes and seconds sit in the time text. */
  lemma TimeFields(hh: string, mi: string, ss: string)
    requires |hh| == 2 && |mi| == 2 && |ss| == 2
    ensures var t := TimeText(hh, mi, ss);
      && |t| == 9 && t[0] == ' ' && t[3] == ':' && t[6] == ':'
      && t[1..3] == hh && t[4..6] == mi && t[7..9] == ss
  {
    var p := " " + hh + ":" + mi;
    assert (" " + hh)[1..] == hh by { Drop(" ", hh); }
    assert p[4..] == mi by { Drop(" " + hh + ":", mi); }
    assert (p + ":" + ss)[7..] == ss by { Drop(p + ":", ss); }
  }

  lemma Drop(a: string, b: string)
    ensures (a + b)[|a|..] == b
  {
  }

  /** A slice within the left operand of a concatenation. */
  lemma SliceLeft(a: string, b: string, i: nat, j: nat)
    requires i <= j <= |a|
    ensures (a + b)[i..j] == a[i..j]
  {
  }

  /** A slice within the right operand of a concatenation. */
  lemma SliceRight(a: string, b: string, i: nat, j: nat)
    requires i <= j <= |b|
    ensures (a + b)[|a| + i..|a| + j] == b[i..j]
  {
  }

  /** The layout "DD.MM.YYYY hh:mm:ss" of `r`, for a year `y` of any length:
      the two-character day, month, hours, minutes and seconds and the year at
      their places, with the separators between them. */
  predicate LaidOut(r: string, dd: string, mo: string, y: string, hh: string, mi: string, ss: string) {
    var n := |y|;
    && |r| == 15 + n
    && r[2] == '.' && r[5] == '.' && r[6 + n] == ' ' && r[9 + n] == ':' && r[12 + n] == ':'
    && r[0..2] == dd && r[3..5] == mo && r[6..6 + n] == y
    && r[7 + n..9 + n] == hh && r[10 + n..12 + n] == mi && r[13 + n..15 + n] == ss
  }

  /** Joining the date and the time text lays out two-character fields. */
  lemma JoinedFields(r: string, dd: string, mo: string, y: string, hh: string, mi: string, ss: string)
    requires |dd| == 2 && |mo| == 2 && |hh| == 2 && |mi| == 2 && |ss| == 2
    requires r == DateText(dd, mo, y) + TimeText(hh, mi, ss)
    ensures LaidOut(r, dd, mo, y, hh, mi, ss)
  {
    var date, time := DateText(dd, mo, y), TimeText(hh, mi, ss);
    DateFields(dd, mo, y);
    TimeFields(hh, mi, ss);
    SliceLeft(date, time, 0, 2);
    SliceLeft(date, time, 3, 5);
    SliceLeft(date, time, 6, 6 + |y|);
    assert date[6..6 + |y|] == y;
    SliceRight(date, time, 1, 3);
    SliceRight(date, time, 4, 6);
    SliceRight(date, time, 7, 9);
  }

  /** A formatted date is laid out as "DD.MM.YYYY hh:mm:ss": day, month + 1,
      hours, minutes and seconds are each the two digits `Pad2` gives (see
      Pad2Digits), and the year is unpadded. */
  lemma FormattedLayout(d: DateParts)
    ensures LaidOut(Formatted(d), Pad2(d.date), Pad2(d.month + 1), IntToString(d.fullYear),
                    Pad2(d.hours), Pad2(d.minutes), Pad2(d.seconds))
  {
    JoinedFields(Formatted(d), Pad2(d.date), Pad2(d.month + 1), IntToString(d.fullYear),
                 Pad2(d.hours), Pad2(d.minutes), Pad2(d.seconds));
  }

  // ---------------------------------------------- set, _createNode, _setValue

  /** The description of a state node handed to `set`: its id, and the
      optional description, role, type, common part and native part. */
  datatype Node = Node(
    node: string,
    description: Option<string>,
    role: Option<string>,
    kind: Option<string>,
    common: Option<map<string, Value>>,
    native: Option<map<string, Value>>)

  /** The object written by `setObject`. */
  datatype StateObject = StateObject(common: map<string, Value>, kind: string, native: map<string, Value>)

  /** What a call into the platform's store does. */
  datatype Action =
    | SetState(id: string, val: Value)
    | SetObject(id: string, obj: StateObject)

  /** The outcome of `getObject(node.node)`. */
  datatype Lookup = LookupError | NotFound | Found

  /** The lowest-priority common fields. */
  function Defaults(): map<string, Value> {
    map["role" := Str("state"), "type" := Str("string")]
  }

  /** The `common` built field by field from the node's own description,
      role and type, each only when it is defined. */
  function Overrides(node: Node): (m: map<string, Value>)
    ensures "name" in m <==> node.description.Some?
    ensures "role" in m <==> node.role.Some?
    ensures "type" in m <==> node.kind.Some?
    ensures m.Keys <= {"name", "role", "type"}
  {
    var withName := if node.description.Some? then map["name" := Str(node.description.value)] else map[];
    var withRole := if node.role.Some? then withName["role" := Str(node.role.value)] else withName;
    if node.kind.Some? then withRole["type" := Str(node.kind.value)] else withRole
  }

  /** The object `_createNode` writes:
      `Object.assign({role: 'state', type: 'string'}, node.common || {}, common)`. */
  function NodeObject(node: Node): StateObject {
    StateObject(Defaults() + node.common.GetOr(map[]) + Overrides(node), "state", node.native.GetOr(map[]))
  }

  /** `_createNode`, which fills `common` by conditional assignments. */
  method CreateNode(node: Node) returns (obj: StateObject)
    ensures obj == NodeObject(node)
  {
    var common: map<string, Value> := map[];
    if node.description.Some? {
      common := common["name" := Str(node.description.value)];
    }
    if node.role.Some? {
      common := common["role" := Str(node.role.value)];
    }
    if node.kind.Some? {
      common := common["type" := Str(node.kind.value)];
    }
    var given := if node.common.Some? then node.common.value else map[];
    var native := if node.native.Some? then node.native.value else map[];
    obj := StateObject(Defaults() + given + common, "state", native);
  }

  /** Merge priority of a created node's common fields: the node's own
      description, role and type win over `node.common`, which wins over the
      defaults; role and type are always present. */
  lemma NodeCommonPriority(node: Node, key: string)
    ensures var c, given, own := NodeObject(node).common, node.common.GetOr(map[]), Overrides(node);
      && (key in c <==> key in own || key in given || key in Defaults())
      && (key in own ==> c[key] == own[key])
      && (key !in own && key in given ==> c[key] == given[key])
      && (key !in own && key !in given && key in Defaults() ==> c[key] == Defaults()[key])
      && "role" in c && "type" in c
  {
  }

  /** The name, role and type a created node ends up with. */
  lemma NodeCommonFields(node: Node)
    ensures var c, given := NodeObject(node).common, node.common.GetOr(map[]);
      && (node.description.Some? ==> c["name"] == Str(node.description.value))
      && (node.role.Some? ==> c["role"] == Str(node.role.value))
      && (node.role.None? && "role" !in given ==> c["role"] == Str("state"))
      && (node.kind.Some? ==> c["type"] == Str(node.kind.value))
      && (node.kind.None? && "type" !in given ==> c["type"] == Str("string"))
  {
  }

  /** `_setValue(state, value)`: one write, unless the value is undefined. */
  function SetValue(state: string, value: Value): (r: seq<Action>)
    ensures value == Undefined <==> r == []
    ensures value != Undefined ==> r == [SetState(state, value)]
  {
    if value != Undefined then [SetState(state, value)] else []
  }

  /** `set(node, value)`. When the lookup fails or finds nothing, the node is
      created; the value write is issued first, since `_setValue` is called
      while the arguments of `_createNode` are evaluated. */
  function Set(node: Node, value: Value, lookup: Lookup): (r: seq<Action>)
    ensures lookup != Found <==> r != [] && r[|r| - 1] == SetObject(node.node, NodeObject(node))
    ensures value != Undefined <==> r != [] && r[0] == SetState(node.node, value)
    ensures |r| == (if value != Undefined then 1 else 0) + (if lookup != Found then 1 else 0)
  {
    if lookup != Found then SetValue(node.node, value) + [SetObject(node.node, NodeObject(node))]
    else SetValue(node.node, value)
  }
}
