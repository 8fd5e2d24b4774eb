/**
 Names for constraints that were given none: the table, the columns, a word for the kind and a
 number, cut so that they fit but never in the word and the number.
 */
module ConstraintNames {
  import opened Common

  const OCTO_MAX_IDENT := 63

  datatype Kind = Check(column: Option<string>) | PrimaryKey | Unique(columns: seq<string>)

  function Word(kind: Kind): string {
    match kind
    case Check(_) => "check"
    case PrimaryKey => "pkey"
    case Unique(_) => "key"
  }

  function Cut(s: string, n: nat): string {
    if n < |s| then s[..n] else s
  }

  // ----- numbers

  predicate IsDigit(c: char) { '0' <= c <= '9' }

  function DigitChar(d: nat): (c: char)
    requires d < 10
    ensures IsDigit(c)
  {
    '0' + (d as char)
  }

  function Digits(n: nat): (s: string)
    ensures s != [] && forall c <- s :: IsDigit(c)
  {
    if n < 10 then [DigitChar(n)] else Digits(n / 10) + [DigitChar(n % 10)]
  }

  /** The number that a string of digits stands for. */
  function Value(s: string): (n: nat)
    requires forall c <- s :: IsDigit(c)
  {
    if s == "" then 0
    else
      var last := s[|s| - 1];
      assert last in s && IsDigit(last) && last as int >= '0' as int;
      10 * Value(s[..|s| - 1]) + (last as int - '0' as int)
  }

  /** The digits of a number are those of its decimal notation, without leading zeros. */
  lemma {:induction false} DigitsValue(n: nat)
    ensures Value(Digits(n)) == n && (n > 0 ==> Digits(n)[0] != '0')
  {
    var s := Digits(n);
    if n < 10 {
      assert s[..0] == "";
    } else {
      DigitsValue(n / 10);
      assert s[..|s| - 1] == Digits(n / 10) && s[0] == Digits(n / 10)[0];
    }
  }

  lemma {:induction false} DigitsDiffer(n: nat, m: nat)
    requires n != m
    ensures Digits(n) != Digits(m)
    decreases n + m
  {
    if n >= 10 && m >= 10 {
      if n % 10 == m % 10 {
        DigitsDiffer(n / 10, m / 10);
      }
      assert Digits(n)[..|Digits(n)| - 1] == Digits(n / 10) && Digits(m)[..|Digits(m)| - 1] == Digits(m / 10);
      assert Digits(n)[|Digits(n)| - 1] == DigitChar(n % 10) && Digits(m)[|Digits(m)| - 1] == DigitChar(m % 10);
    }
  }

  /** No number for the first name. */
  function Tail(number: nat): string {
    if number == 0 then "" else Digits(number)
  }

  /** What every name ends with. */
  function Ending(kind: Kind, number: nat): string {
    "_" + Word(kind) + Tail(number)
  }

  /** An ending is the word for the kind of a constraint, and its number if it has one. */
  lemma EndingIs(kind: Kind, number: nat)
    ensures match kind
            case Check(_) => IsEnding(Ending(kind, number), "_check", number)
            case PrimaryKey => IsEnding(Ending(kind, number), "_pkey", number)
            case Unique(_) => IsEnding(Ending(kind, number), "_key", number)
  {
    IsEndingOf("_" + Word(kind), number);
  }

  ghost predicate IsEnding(ending: string, word: string, number: nat) {
    if number == 0 then ending == word
    else
      && |word| < |ending| && ending[..|word|] == word && (forall c <- ending[|word|..] :: IsDigit(c))
      && Value(ending[|word|..]) == number
  }

  lemma IsEndingOf(word: string, number: nat)
    ensures IsEnding(word + Tail(number), word, number)
  {
    DigitsValue(number);
    assert (word + Tail(number))[|word|..] == Tail(number);
  }

  // ----- the list of columns

  function Joined(columns: seq<string>): string
    requires columns != []
  {
    if |columns| == 1 then columns[0] else Joined(columns[..|columns| - 1]) + "_" + columns[|columns| - 1]
  }

  lemma {:induction false} JoinedPrefix(columns: seq<string>, i: nat)
    requires 0 < i <= |columns|
    ensures Joined(columns[..i]) <= Joined(columns)
    decreases |columns| - i
  {
    if i < |columns| {
      JoinedPrefix(columns, i + 1);
      assert columns[..i + 1][..i] == columns[..i];
    } else {
      assert columns[..i] == columns;
    }
  }

  lemma JoinedNext(columns: seq<string>, i: nat)
    requires i < |columns|
    ensures Joined(columns[..i + 1]) == if i == 0 then columns[0] else Joined(columns[..i]) + ("_" + columns[i])
  {
    assert columns[..i + 1][..i] == columns[..i];
  }

  lemma CutConcat(a: string, b: string, n: nat)
    requires |a| <= n
    ensures Cut(a + b, n) == a + Cut(b, n - |a|)
  {
  }

  lemma CutPrefix(a: string, b: string, n: nat)
    requires a <= b && |a| >= n
    ensures Cut(a, n) == Cut(b, n)
  {
  }

  /** The columns of a UNIQUE constraint with underscores between them, as far as they fit. */
  method ColumnList(columns: seq<string>) returns (list: string)
    requires columns != []
    ensures list == Cut(Joined(columns), OCTO_MAX_IDENT)
  {
    hide Joined;
    list := "";
    var room := OCTO_MAX_IDENT + 1;
    var i := 0;
    while true
      invariant i < |columns| && room == OCTO_MAX_IDENT + 1 - |list| > 0
      invariant i == 0 ==> list == ""
      invariant i > 0 ==> list == Joined(columns[..i])
      decreases |columns| - i
    {
      var piece := if i == 0 then columns[i] else "_" + columns[i];
      ghost var whole := list + piece;
      JoinedNext(columns, i);
      JoinedPrefix(columns, i + 1);
      CutConcat(list, piece, OCTO_MAX_IDENT);
      list := list + Cut(piece, room - 1);
      if |piece| >= room {
        CutPrefix(whole, Joined(columns), OCTO_MAX_IDENT);
        return;
      }
      room := room - |piece|;
      i := i + 1;
      if i == |columns| {
        assert columns[..i] == columns;
        return;
      }
    }
  }

  // ----- the name

  /** The columns that take part in the name. */
  ghost function Part(kind: Kind): Option<string> {
    match kind
    case Check(column) => column
    case PrimaryKey => None
    case Unique(columns) => if columns == [] then None else Some(Cut(Joined(columns), OCTO_MAX_IDENT))
  }

  function Middle(part: Option<string>): string {
    if part.None? then "" else "_" + part.value
  }

  /** The name with `t` characters of the table and `c` of the columns. */
  ghost predicate CutAt(table: string, part: Option<string>, ending: string, name: string, t: nat, c: nat) {
    && t <= |table| && (if part.None? then c == 0 else c <= |part.value|)
    && name == table[..t] + (if part.None? then "" else "_" + part.value[..c]) + ending
    && (t < |table| ==> t >= t + c - (t + c) / 2) && (part.Some? && c < |part.value| ==> c >= (t + c) / 2)
  }

  /** A name that fits is whole.  Any other fills the buffer, keeps its ending, and is cut in the names of
      the table and the columns, in each only down to half of the room if the other needs its half. */
  ghost predicate Generated(table: string, part: Option<string>, ending: string, size: nat, name: string) {
    var whole := table + Middle(part) + ending;
    if |whole| < size then name == whole
    else
      |name| + 1 == size && exists t: nat, c: nat :: CutAt(table, part, ending, name, t, c)
  }

  method AutoGenerate(kind: Kind, table: string, number: nat, size: nat) returns (name: string)
    requires kind.Unique? ==> kind.columns != []
    requires |Ending(kind, number)| + 2 <= size
    ensures Generated(table, Part(kind), Ending(kind, number), size, name)
  {
    var part: Option<string>;
    match kind {
      case Check(column) => part := column;
      case PrimaryKey => part := None;
      case Unique(columns) =>
        var list := ColumnList(columns);
        part := Some(list);
    }
    var ending := Ending(kind, number);
    var whole := table + Middle(part) + ending;
    name := Cut(whole, size - 1);
    if |whole| < size {
      return;
    }
    var reserved := |ending| + 1;
    if part.None? {
      var tableLength := size - reserved;
      name := table[..tableLength] + ending;
      assert CutAt(table, part, ending, name, tableLength, 0);
    } else {
      var tableLength, columnLength := Share(size - reserved - 1, |table|, |part.value|);
      name := table[..tableLength] + ("_" + part.value[..columnLength]) + ending;
      assert CutAt(table, part, ending, name, tableLength, columnLength);
    }
  }

  /** How the room is shared between the two names, which together need more. */
  method Share(room: nat, table: nat, column: nat) returns (tableLength: nat, columnLength: nat)
    requires table + column > room
    ensures tableLength <= table && columnLength <= column && tableLength + columnLength == room
    ensures tableLength < table ==> tableLength >= room - room / 2
    ensures columnLength < column ==> columnLength >= room / 2
  {
    tableLength, columnLength := table, column;
    var columnRoom := room / 2;
    var tableRoom := room - columnRoom;
    if tableLength <= tableRoom {
      columnLength := room - tableLength;
    } else if columnLength <= columnRoom {
      tableLength := room - columnLength;
    } else {
      if columnLength > columnRoom {
        columnLength := columnRoom;
      }
      tableLength := tableRoom;
    }
  }

  lemma EndsAlike(a: string, x: char, s: string, b: string, y: char, t: string)
    requires a + [x] + s == b + [y] + t && !IsDigit(x) && !IsDigit(y)
    requires (forall c <- s :: IsDigit(c)) && forall c <- t :: IsDigit(c)
    ensures s == t
  {
    Aligned(a, x, s, b, y, t);
  }

  lemma Aligned(a: string, x: char, s: string, b: string, y: char, t: string)
    requires a + [x] + s == b + [y] + t
    ensures |a| > |b| ==> x in t
    ensures |b| > |a| ==> y in s
    ensures |a| == |b| ==> s == t
  {
    var name, name' := a + [x] + s, b + [y] + t;
    assert name[|a|] == x && name'[|b|] == y && |name| == |name'|;
    if |a| > |b| {
      assert name'[|a|] == t[|a| - |b| - 1];
    } else if |b| > |a| {
      assert name[|b|] == s[|b| - |a| - 1];
    } else {
      assert s == name[|a| + 1..] && t == name'[|b| + 1..];
    }
  }

  lemma EndsWith(table: string, part: Option<string>, ending: string, size: nat, name: string) returns (front: string)
    requires Generated(table, part, ending, size, name)
    ensures name == front + ending
  {
    if |table + Middle(part) + ending| < size {
      front := table + Middle(part);
    } else {
      var t: nat, c: nat :| CutAt(table, part, ending, name, t, c);
      front := table[..t] + if part.None? then "" else "_" + part.value[..c];
    }
  }

  lemma EndingOf(table: string, kind: Kind, number: nat, size: nat, name: string) returns (head: string, last: char)
    requires Generated(table, Part(kind), Ending(kind, number), size, name)
    ensures name == head + [last] + Tail(number) && !IsDigit(last)
  {
    hide Generated;
    var front := EndsWith(table, Part(kind), Ending(kind, number), size, name);
    var word := "_" + Word(kind);
    last := word[|word| - 1];
    head := front + word[..|word| - 1];
    assert word == word[..|word| - 1] + [last];
  }

  /** Different numbers give different names, cut or not. */
  lemma NumbersDistinguish(table: string, kind: Kind, size: nat, n: nat, m: nat, name: string, name': string)
    requires n != m
    requires Generated(table, Part(kind), Ending(kind, n), size, name)
        && Generated(table, Part(kind), Ending(kind, m), size, name')
    ensures name != name'
  {
    if name == name' {
      var a, x := EndingOf(table, kind, n, size, name);
      var b, y := EndingOf(table, kind, m, size, name');
      EndsAlike(a, x, Tail(n), b, y, Tail(m));
      if n != 0 && m != 0 {
        DigitsDiffer(n, m);
      }
    }
  }
}
