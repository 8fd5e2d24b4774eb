/**
 A row of a result: columns, each after a header with its length, which is rewritten in place into
 the columns with bars between them.
 */
module ResultRow {

  type Byte = x: int | 0 <= x < 256

  const BAR: Byte := '|' as int
  const MAX_STRING_LENGTH := 1048573

  datatype Value = Null | Text(bytes: seq<Byte>)

  /** Strings as long as the header can tell. */
  predicate Storable(v: Value) {
    v.Null? || |v.bytes| <= MAX_STRING_LENGTH
  }

  function Shown(v: Value): seq<Byte> {
    if v.Null? then [] else v.bytes
  }

  /** The header: one zero byte for NULL, else the length with the one, two or three bytes of the
      header included. */
  function Header(v: Value): (h: seq<Byte>)
    requires Storable(v)
    ensures 1 <= |h| <= 3
  {
    if v.Null? then [0]
    else
      var n := |v.bytes|;
      if n < 127 then [n + 1]
      else if n < 16382 then [128 + (n + 2) / 256, (n + 2) % 256]
      else [192 + (n + 3) / 65536, (n + 3) / 256 % 256, (n + 3) % 256]
  }

  function Encode(v: Value): seq<Byte>
    requires Storable(v)
  {
    Header(v) + Shown(v)
  }

  ghost predicate AllStorable(row: seq<Value>) {
    forall v <- row :: Storable(v)
  }

  function EncodeRow(row: seq<Value>): seq<Byte>
    requires AllStorable(row)
  {
    if row == [] then [] else Encode(row[0]) + EncodeRow(row[1..])
  }

  /** The columns with bars between them. */
  function Joined(row: seq<Value>): seq<Byte>
    requires row != []
  {
    if |row| == 1 then Shown(row[0]) else Joined(row[..|row| - 1]) + [BAR] + Shown(row[|row| - 1])
  }

  /** What is shown of a buffer: the bytes before the first zero. */
  function BeforeZero(s: seq<Byte>): seq<Byte> {
    if s == [] || s[0] == 0 then [] else [s[0]] + BeforeZero(s[1..])
  }

  lemma {:induction false} BeforeZeroIsAll(s: seq<Byte>)
    ensures BeforeZero(s) == s <==> 0 !in s
    ensures BeforeZero(s) <= s
  {
    if s != [] && s[0] != 0 {
      BeforeZeroIsAll(s[1..]);
      assert s == [s[0]] + s[1..];
    }
  }

  lemma {:induction false} BeforeZeroStops(s: seq<Byte>, t: seq<Byte>)
    ensures BeforeZero(s + [0] + t) == BeforeZero(s)
  {
    if s != [] && s[0] != 0 {
      BeforeZeroStops(s[1..], t);
      assert (s + [0] + t)[1..] == s[1..] + [0] + t;
    }
  }

  /** A row shows a zero byte exactly if one of its columns has one. */
  lemma {:induction false} JoinedZero(row: seq<Value>)
    requires row != []
    ensures 0 in Joined(row) <==> exists v <- row :: 0 in Shown(v)
  {
    if |row| > 1 {
      JoinedZero(row[..|row| - 1]);
      assert row == row[..|row| - 1] + [row[|row| - 1]];
    }
  }

  /** How the first byte tells the kind of header, and the header the length. */
  lemma HeaderTells(v: Value)
    requires Storable(v)
    ensures var h := Header(v); var n: int := |Encode(v)|; var b: int := h[0];
            if b == 0 then |h| == 1 && n == 1
            else if b < 128 then |h| == 1 && n == b
            else if b < 192 then |h| == 2 && n == (b - 128) * 256 + h[1]
            else |h| == 3 && n == (b - 192) * 65536 + (h[1] as int) * 256 + h[2]
  {
  }

  /** The length of the header at `b`, and of the data after it. */
  method GetMvalLen(buffer: array<Byte>, b: nat, ghost v: Value) returns (headerLength: nat, dataLength: nat)
    requires Storable(v) && b + |Encode(v)| <= buffer.Length && buffer[b..b + |Encode(v)|] == Encode(v)
    ensures headerLength == |Header(v)| && dataLength == |Shown(v)|
  {
    assert Header(v) == buffer[b..b + |Header(v)|] by {
      assert Header(v) == Encode(v)[..|Header(v)|];
    }
    HeaderTells(v);
    var byte1: int := buffer[b];
    var length: int;
    if byte1 == 0 {
      length, headerLength := 1, 1;
    } else if byte1 < 128 {
      length, headerLength := byte1, 1;
    } else if byte1 < 192 {
      headerLength := 2;
      var byte2: int := buffer[b + 1];
      length := (byte1 - 128) * 256 + byte2;
    } else {
      headerLength := 3;
      var byte2: int, byte3: int := buffer[b + 1], buffer[b + 2];
      length := (byte1 - 192) * 65536 + byte2 * 256 + byte3;
    }
    dataLength := length - headerLength;
  }

  lemma {:induction false} EncodeRowSplit(row: seq<Value>, i: nat)
    requires AllStorable(row) && i < |row|
    ensures EncodeRow(row[i..]) == Encode(row[i]) + EncodeRow(row[i + 1..])
    ensures |Encode(row[i])| == |Header(row[i])| + |Shown(row[i])|
  {
    assert row[i..][1..] == row[i + 1..];
  }

  /** The state between two columns: what is read is joined before `tail`, what is not is intact. */
  ghost predicate Between(row: seq<Value>, buffer: seq<Byte>, used: nat, start: nat, tail: nat, b: nat, i: nat)
    requires AllStorable(row)
  {
    && 0 < i <= |row| && start <= tail <= b <= used < |buffer|
    && buffer[start..tail] == Joined(row[..i])
    && buffer[b..used] == EncodeRow(row[i..])
  }

  /** Moves `n` bytes down, over ranges that may overlap. */
  method MoveDown(buffer: array<Byte>, target: nat, source: nat, n: nat)
    requires target <= source && source + n <= buffer.Length
    modifies buffer
    ensures buffer[..] == old(buffer[..target] + buffer[source..source + n] + buffer[target + n..])
  {
    forall i | 0 <= i < n {
      buffer[target + i] := buffer[source + i];
    }
  }

  /** Where the parts of the next column are. */
  lemma NextParts(row: seq<Value>, buffer: seq<Byte>, used: nat, b: nat, i: nat)
    requires AllStorable(row) && i < |row| && b <= used <= |buffer| && buffer[b..used] == EncodeRow(row[i..])
    ensures var data := b + |Header(row[i])|; var next := data + |Shown(row[i])|;
            && next <= used && buffer[b..data] == Header(row[i]) && buffer[b..next] == Encode(row[i])
            && buffer[data..next] == Shown(row[i]) && buffer[next..used] == EncodeRow(row[i + 1..])
  {
    hide Header, Shown, EncodeRow;
    EncodeRowSplit(row, i);
    Sliced(buffer, b, used, Header(row[i]), Shown(row[i]), EncodeRow(row[i + 1..]));
  }

  lemma Sliced(buffer: seq<Byte>, b: nat, used: nat, h: seq<Byte>, d: seq<Byte>, rest: seq<Byte>)
    requires b <= used <= |buffer| && buffer[b..used] == h + d + rest
    ensures b + |h| + |d| <= used && buffer[b..b + |h|] == h && buffer[b + |h|..b + |h| + |d|] == d
    ensures buffer[b..b + |h| + |d|] == h + d && buffer[b + |h| + |d|..used] == rest
  {
    var all, n := h + d + rest, |h| + |d|;
    SliceOfSlice(buffer, b, used, 0, |h|);
    SliceOfSlice(buffer, b, used, |h|, n);
    SliceOfSlice(buffer, b, used, 0, n);
    SliceOfSlice(buffer, b, used, n, used - b);
    assert all[0..|h|] == h && all[|h|..n] == d && all[0..n] == h + d && all[n..used - b] == rest;
  }

  lemma SliceOfSlice(s: seq<Byte>, b: nat, e: nat, x: nat, y: nat)
    requires b <= e <= |s| && x <= y <= e - b
    ensures s[b..e][x..y] == s[b + x..b + y]
  {
    assert |s[b..e][x..y]| == y - x == |s[b + x..b + y]|;
    forall k | 0 <= k < y - x ensures s[b..e][x..y][k] == s[b + x..b + y][k] {
      assert s[b..e][x..y][k] == s[b..e][x + k];
    }
  }

  /** What the move of a column, after the bar is set, makes of the buffer. */
  function MovedColumn(buffer: seq<Byte>, tail: nat, bar: nat, n: nat): seq<Byte>
    requires tail <= bar && bar + n + 1 <= |buffer|
  {
    var s := buffer[bar := BAR];
    s[..tail] + s[bar..bar + n + 1] + s[tail + n + 1..]
  }

  lemma MovedBounds(row: seq<Value>, buffer: seq<Byte>, used: nat, start: nat, tail: nat, b: nat, i: nat)
    requires AllStorable(row) && i < |row| && Between(row, buffer, used, start, tail, b, i)
    ensures var bar := b + |Header(row[i])| - 1; var n := |Shown(row[i])|;
            && bar + n + 1 <= used
            && (bar + n + 1 == used ==> i + 1 == |row|)
            && var moved := MovedColumn(buffer, tail, bar, n);
               && |moved| == |buffer| && moved[..start] == buffer[..start] && moved[used..] == buffer[used..]
  {
    hide MovedColumn, Header, Shown, EncodeRow;
    NextParts(row, buffer, used, b, i);
    RowEmpty(row[i + 1..]);
    var bar, n := b + |Header(row[i])| - 1, |Shown(row[i])|;
    MovedEnds(buffer, start, tail, bar, n, used);
  }

  lemma MovedEnds(buffer: seq<Byte>, start: nat, tail: nat, bar: nat, n: nat, used: nat)
    requires start <= tail <= bar && bar + n + 1 <= used <= |buffer|
    ensures var moved := MovedColumn(buffer, tail, bar, n);
            |moved| == |buffer| && moved[..start] == buffer[..start] && moved[used..] == buffer[used..]
  {
    var s := buffer[bar := BAR];
    var front, moved := s[..tail] + s[bar..bar + n + 1], MovedColumn(buffer, tail, bar, n);
    assert moved == front + s[tail + n + 1..];
    forall k | bar + n < k < |buffer| ensures moved[k] == buffer[k] {
    }
    assert moved[..start] == s[..start] == buffer[..start];
  }

  lemma RowEmpty(row: seq<Value>)
    requires AllStorable(row)
    ensures EncodeRow(row) == [] <==> row == []
  {
  }

  lemma MovedFront(buffer: seq<Byte>, start: nat, tail: nat, bar: nat, n: nat)
    requires start <= tail <= bar && bar + n + 1 <= |buffer|
    ensures |MovedColumn(buffer, tail, bar, n)| == |buffer|
    ensures MovedColumn(buffer, tail, bar, n)[start..tail + n + 1] ==
            buffer[start..tail] + [BAR] + buffer[bar + 1..bar + 1 + n]
  {
    var s := buffer[bar := BAR];
    var head, middle := s[..tail], s[bar..bar + n + 1];
    assert head == buffer[..tail] && middle == [BAR] + buffer[bar + 1..bar + 1 + n];
    assert (head + middle)[start..] == head[start..] + middle;
  }

  lemma MovedBack(buffer: seq<Byte>, tail: nat, bar: nat, n: nat, used: nat)
    requires tail <= bar && bar + n + 1 <= used <= |buffer|
    ensures MovedColumn(buffer, tail, bar, n)[bar + n + 1..used] == buffer[bar + n + 1..used]
  {
    var s := buffer[bar := BAR];
    var front, moved := s[..tail] + s[bar..bar + n + 1], MovedColumn(buffer, tail, bar, n);
    assert moved == front + s[tail + n + 1..];
    forall k | bar + n < k < |buffer| ensures moved[k] == buffer[k] {
    }
  }

  lemma JoinedBefore(row: seq<Value>, buffer: seq<Byte>, used: nat, start: nat, tail: nat, b: nat, i: nat)
    requires AllStorable(row) && i < |row| && Between(row, buffer, used, start, tail, b, i)
    requires b + |Header(row[i])| + |Shown(row[i])| <= used
    ensures var bar := b + |Header(row[i])| - 1; var n := |Shown(row[i])|;
            Between(row, MovedColumn(buffer, tail, bar, n), used, start, tail + n + 1, bar + n + 1, i + 1)
  {
    hide MovedColumn, Header, Shown, EncodeRow, Encode;
    NextParts(row, buffer, used, b, i);
    var bar, n := b + |Header(row[i])| - 1, |Shown(row[i])|;
    assert row[..i + 1][..i] == row[..i];
    MovedFront(buffer, start, tail, bar, n);
    MovedBack(buffer, tail, bar, n, used);
  }

  /** One column after the first: its header gives way to a bar, and both move down. */
  method NextColumn(buffer: array<Byte>, used: nat, start: nat, tail: nat, b: nat, ghost row: seq<Value>, ghost i: nat)
    returns (tail': nat, b': nat)
    requires AllStorable(row) && i < |row| && Between(row, buffer[..], used, start, tail, b, i)
    modifies buffer
    ensures Between(row, buffer[..], used, start, tail', b', i + 1) && b < b' && (b' == used ==> i + 1 == |row|)
    ensures buffer[..start] == old(buffer[..start]) && buffer[used..] == old(buffer[used..])
  {
    hide Joined, EncodeRow, Shown, Encode, Header, MovedColumn;
    ghost var before := buffer[..];
    NextParts(row, before, used, b, i);
    MovedBounds(row, before, used, start, tail, b, i);
    JoinedBefore(row, before, used, start, tail, b, i);
    var headerLength, dataLength := GetMvalLen(buffer, b, row[i]);
    var bar := b + headerLength - 1;
    SetBar(buffer, tail, bar, dataLength);
    tail', b' := tail + dataLength + 1, bar + dataLength + 1;
  }

  method SetBar(buffer: array<Byte>, tail: nat, bar: nat, n: nat)
    requires tail <= bar && bar + n + 1 <= buffer.Length
    modifies buffer
    ensures buffer[..] == MovedColumn(old(buffer[..]), tail, bar, n)
  {
    ghost var before := buffer[..];
    buffer[bar] := BAR;
    assert buffer[..] == before[bar := BAR];
    if tail != bar {
      MoveDown(buffer, tail, bar, n + 1);
    }
  }

  /** Rewrites the row in place; what is then shown are its columns with bars between them, up to the
      first zero byte in a column. */
  method PrintResultRow(buffer: array<Byte>, used: nat, ghost row: seq<Value>) returns (shown: seq<Byte>)
    requires AllStorable(row) && row != [] && used < buffer.Length && buffer[..used] == EncodeRow(row)
    modifies buffer
    ensures shown == BeforeZero(Joined(row))
    ensures buffer[used + 1..] == old(buffer[used + 1..])
  {
    hide Joined, EncodeRow, Shown, Encode, BeforeZero, Header;
    FirstColumn(row, buffer[..], used);
    var headerLength, dataLength := GetMvalLen(buffer, 0, row[0]);
    var start := headerLength;
    var tail, b := headerLength + dataLength, headerLength + dataLength;
    ghost var i := 1;
    while b < used
      invariant Between(row, buffer[..], used, start, tail, b, i) && (b == used ==> i == |row|)
      invariant buffer[used..] == old(buffer[used..])
      decreases used - b
    {
      assert i < |row| by {
        if i == |row| {
          RowEmpty(row[i..]);
        }
      }
      tail, b := NextColumn(buffer, used, start, tail, b, row, i);
      i := i + 1;
    }
    assert row[..i] == row;
    ghost var joined := buffer[..];
    buffer[tail] := 0;
    Terminated(joined, start, tail, used);
    assert buffer[..] == joined[tail := 0];
    assert buffer[start..] == buffer[..][start..] && buffer[used + 1..] == buffer[..][used + 1..];
    BeforeZeroStops(Joined(row), joined[tail + 1..]);
    shown := BeforeZero(buffer[start..]);
  }

  lemma Terminated(joined: seq<Byte>, start: nat, tail: nat, used: nat)
    requires start <= tail <= used < |joined|
    ensures joined[tail := 0][start..] == joined[start..tail] + [0] + joined[tail + 1..]
    ensures joined[tail := 0][used + 1..] == joined[used..][1..]
  {
  }

  lemma FirstColumn(row: seq<Value>, buffer: seq<Byte>, used: nat)
    requires AllStorable(row) && row != [] && used < |buffer| && buffer[..used] == EncodeRow(row)
    ensures var start := |Header(row[0])|; var b := start + |Shown(row[0])|;
            && b <= used && buffer[0..b] == Encode(row[0]) && |Encode(row[0])| == b
            && Between(row, buffer, used, start, b, b, 1) && (b == used ==> |row| == 1)
  {
    assert row[0..] == row && buffer[0..used] == buffer[..used];
    NextParts(row, buffer, used, 0, 0);
    RowEmpty(row[1..]);
    assert row[..1] == [row[0]];
  }

  /** All of a row is shown exactly if no column has a zero byte. */
  lemma ShowsAll(row: seq<Value>)
    requires row != []
    ensures BeforeZero(Joined(row)) == Joined(row) <==> forall v <- row :: 0 !in Shown(v)
  {
    BeforeZeroIsAll(Joined(row));
    JoinedZero(row);
  }
}
