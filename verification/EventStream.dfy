/** The incremental reader of the event stream (frontend/src/api.ts, decodeSseBlocks and the loop of
    streamEvents), a line-by-line reference reader in the manner of sections 9.2.5 and 9.2.6 of the
    WHATWG HTML standard, and the server's encoder (src/doppel_agent/api/sse.py). */
module EventStream {
  // ----- decoding, as the code does it -----

  /** replaceAll("\r\n", "\n") */
  function Normalize(s: string): string {
    if |s| >= 2 && s[0] == '\r' && s[1] == '\n' then ['\n'] + Normalize(s[2..])
    else if s == [] then []
    else [s[0]] + Normalize(s[1..])
  }

  predicate StartsBlank(s: string) {
    |s| >= 2 && s[0] == '\n' && s[1] == '\n'
  }

  /** Put a character in front of the first part. */
  function Extend(c: char, parts: seq<string>): (longer: seq<string>)
    requires parts != []
    ensures |longer| == |parts|
  {
    [[c] + parts[0]] + parts[1..]
  }

  /** split("\n\n") */
  function Split(s: string): (parts: seq<string>)
    ensures parts != []
  {
    if s == [] then [[]]
    else if StartsBlank(s) then [[]] + Split(s[2..])
    else Extend(s[0], Split(s[1..]))
  }

  function Parts(s: string): seq<string> {
    Split(Normalize(s))
  }

  function Init(parts: seq<string>): seq<string>
    requires parts != []
  {
    parts[..|parts| - 1]
  }

  function Last(parts: seq<string>): string
    requires parts != []
  {
    parts[|parts| - 1]
  }

  /** split("\n") */
  function Lines(s: string): (lines: seq<string>)
    ensures lines != []
  {
    if s == [] then [[]]
    else if s[0] == '\n' then [[]] + Lines(s[1..])
    else Extend(s[0], Lines(s[1..]))
  }

  predicate IsSpace(c: char) {
    c in "\t\n\r " || c in "\U{000B}\U{000C}\U{00A0}\U{1680}\U{2028}\U{2029}\U{202F}\U{205F}\U{3000}\U{FEFF}"
    || '\U{2000}' <= c <= '\U{200A}'
  }

  function TrimStart(s: string): string {
    if s != [] && IsSpace(s[0]) then TrimStart(s[1..]) else s
  }

  predicate IsData(line: string) {
    "data:" <= line
  }

  /** The trimmed values of the data lines. */
  function DataOf(lines: seq<string>): seq<string> {
    if lines == [] then []
    else if IsData(lines[0]) then [TrimStart(lines[0][5..])] + DataOf(lines[1..])
    else DataOf(lines[1..])
  }

  function Joined(lines: seq<string>): string {
    if lines == [] then [] else if |lines| == 1 then lines[0] else lines[0] + "\n" + Joined(lines[1..])
  }

  /** What one block emits: its joined data, when not empty. */
  function Emitted(data: seq<string>): seq<string> {
    if Joined(data) == [] then [] else [Joined(data)]
  }

  function ItemsOf(blocks: seq<string>): seq<string> {
    if blocks == [] then [] else Emitted(DataOf(Lines(blocks[0]))) + ItemsOf(blocks[1..])
  }

  /** Data is every line that starts with the five characters of the field name. */
  lemma DataLineMeans(line: string)
    ensures IsData(line) <==>
            |line| >= 5 && line[0] == 'd' && line[1] == 'a' && line[2] == 't' && line[3] == 'a' && line[4] == ':'
  {
    if |line| >= 5 && line[0] == 'd' && line[1] == 'a' && line[2] == 't' && line[3] == 'a' && line[4] == ':' {
      assert line[..5] == "data:";
    }
  }

  /** Trimming drops exactly the leading white space. */
  lemma {:induction false} TrimDropsSpaces(s: string, k: nat)
    requires k <= |s| && (forall i | 0 <= i < k :: IsSpace(s[i])) && (k < |s| ==> !IsSpace(s[k]))
    ensures TrimStart(s) == s[k..]
    decreases k
  {
    if k > 0 { TrimDropsSpaces(s[1..], k - 1); }
  }

  /** The white space of ECMAScript: its white space characters and its line terminators. */
  lemma SpacesAre(c: char)
    ensures IsSpace(c) <==>
            || 0x9 <= c as int <= 0xD || c as int == 0x20 || c as int == 0xA0 || c as int == 0x1680
            || 0x2000 <= c as int <= 0x200A || c as int == 0x2028 || c as int == 0x2029 || c as int == 0x202F
            || c as int == 0x205F || c as int == 0x3000 || c as int == 0xFEFF
  {
  }

  predicate OneLine(s: string) {
    '\n' !in s
  }

  lemma {:induction false} LinesOfJoin(first: string, rest: string)
    requires OneLine(first)
    ensures Lines(first + "\n" + rest) == [first] + Lines(rest) && Lines(first) == [first]
  {
    if first == [] {
      assert first + "\n" + rest == "\n" + rest && ("\n" + rest)[1..] == rest;
    } else {
      var tail := first[1..];
      assert first == [first[0]] + tail && first[0] in first;
      assert forall c | c in tail :: c in first;
      LinesOfJoin(tail, rest);
      assert (first + "\n" + rest)[0] == first[0] && (first + "\n" + rest)[1..] == tail + "\n" + rest;
      assert Extend(first[0], [tail] + Lines(rest)) == [first] + Lines(rest);
    }
  }

  /** Joining lines and splitting the text again gives the lines: all of them, in order. */
  lemma {:induction false} JoinKeepsLines(lines: seq<string>)
    requires lines != [] && forall i | 0 <= i < |lines| :: OneLine(lines[i])
    ensures Lines(Joined(lines)) == lines
  {
    if |lines| == 1 {
      LinesOfJoin(lines[0], []);
    } else {
      JoinKeepsLines(lines[1..]);
      LinesOfJoin(lines[0], Joined(lines[1..]));
    }
  }

  method DecodeSseBlocks(input: string) returns (items: seq<string>, rest: string)
    ensures items == ItemsOf(Init(Parts(input))) && rest == Last(Parts(input))
  {
    var blocks := Split(Normalize(input));
    rest := blocks[|blocks| - 1];
    items := EmitBlocks(blocks[..|blocks| - 1]);
  }

  method EmitBlocks(blocks: seq<string>) returns (items: seq<string>)
    ensures items == ItemsOf(blocks)
  {
    items := [];
    for i := 0 to |blocks|
      invariant items == ItemsOf(blocks[..i])
    {
      ItemsNext(blocks, i);
      var data := Joined(DataOf(Lines(blocks[i])));
      if data != [] {
        items := items + [data];
      }
    }
    assert blocks[..|blocks|] == blocks;
  }

  lemma ItemsNext(blocks: seq<string>, i: nat)
    requires i < |blocks|
    ensures ItemsOf(blocks[..i + 1]) == ItemsOf(blocks[..i]) + Emitted(DataOf(Lines(blocks[i])))
  {
    var one := [blocks[i]];
    assert blocks[..i + 1] == blocks[..i] + one && one[1..] == [];
    ItemsConcat(blocks[..i], one);
    assert ItemsOf(one) == Emitted(DataOf(Lines(blocks[i])));
  }

  /** Feeding chunks one by one, the rest of each decoding prepended to the next chunk. */
  function Fed(buffer: string, chunks: seq<string>): (seq<string>, string)
    decreases |chunks|
  {
    if chunks == [] then ([], buffer)
    else
      var parts := Parts(buffer + chunks[0]);
      var (blocks, rest) := Fed(Last(parts), chunks[1..]);
      (Init(parts) + blocks, rest)
  }

  function Concat(chunks: seq<string>): string {
    if chunks == [] then [] else chunks[0] + Concat(chunks[1..])
  }

  method StreamEvents(chunks: seq<string>) returns (items: seq<string>, buffer: string)
    ensures items == ItemsOf(Fed([], chunks).0) && buffer == Fed([], chunks).1
  {
    items, buffer := [], [];
    for i := 0 to |chunks|
      invariant items + ItemsOf(Fed(buffer, chunks[i..]).0) == ItemsOf(Fed([], chunks).0)
      invariant Fed(buffer, chunks[i..]).1 == Fed([], chunks).1
    {
      FedStep(buffer, chunks, i);
      var more, rest := DecodeSseBlocks(buffer + chunks[i]);
      items, buffer := items + more, rest;
    }
  }

  lemma FedStep(buffer: string, chunks: seq<string>, i: nat)
    requires i < |chunks|
    ensures var parts, fed := Parts(buffer + chunks[i]), Fed(buffer, chunks[i..]);
            var left := Fed(Last(parts), chunks[i + 1..]);
            ItemsOf(fed.0) == ItemsOf(Init(parts)) + ItemsOf(left.0) && fed.1 == left.1
  {
    assert chunks[i..][0] == chunks[i] && chunks[i..][1..] == chunks[i + 1..];
    var parts := Parts(buffer + chunks[i]);
    ItemsConcat(Init(parts), Fed(Last(parts), chunks[i + 1..]).0);
  }

  lemma {:induction false} ItemsConcat(a: seq<string>, b: seq<string>)
    ensures ItemsOf(a + b) == ItemsOf(a) + ItemsOf(b)
  {
    if a == [] {
      assert a + b == b;
    } else {
      assert (a + b)[1..] == a[1..] + b;
      ItemsConcat(a[1..], b);
    }
  }

  // ----- chunk independence -----

  predicate CrlfAt(s: string, i: nat) {
    i + 1 < |s| && s[i] == '\r' && s[i + 1] == '\n'
  }

  ghost predicate HasCrlf(s: string) {
    exists i: nat :: CrlfAt(s, i)
  }

  ghost predicate HasCrCrlf(s: string) {
    exists i: nat :: CrlfAt(s, i + 1) && s[i] == '\r'
  }

  lemma ConsConcat(c: char, x: string, y: string)
    ensures [c] + x + y == [c] + (x + y)
  {
  }

  lemma {:induction false} NormalizeConcat(a: string, b: string)
    requires !(a != [] && a[|a| - 1] == '\r' && b != [] && b[0] == '\n')
    ensures Normalize(a + b) == Normalize(a) + Normalize(b)
  {
    if a == [] {
      assert a + b == b;
    } else if CrlfAt(a, 0) {
      assert (a + b)[2..] == a[2..] + b;
      NormalizeConcat(a[2..], b);
      ConsConcat('\n', Normalize(a[2..]), Normalize(b));
    } else {
      assert (a + b)[1..] == a[1..] + b && !CrlfAt(a + b, 0);
      NormalizeConcat(a[1..], b);
      ConsConcat(a[0], Normalize(a[1..]), Normalize(b));
    }
  }

  lemma {:induction false} NormalizeFixed(s: string)
    requires !HasCrlf(s)
    ensures Normalize(s) == s
  {
    if s != [] {
      forall i: nat ensures !CrlfAt(s[1..], i) { assert !CrlfAt(s, i + 1); }
      assert !CrlfAt(s, 0);
      NormalizeFixed(s[1..]);
    }
  }

  lemma ExtendParts(c: char, parts: seq<string>)
    requires |parts| > 1
    ensures Init(Extend(c, parts)) == Extend(c, Init(parts)) && Last(Extend(c, parts)) == Last(parts)
  {
  }

  lemma ExtendConcat(c: char, parts: seq<string>, more: seq<string>)
    requires parts != []
    ensures Extend(c, parts + more) == Extend(c, parts) + more
  {
  }

  lemma {:induction false} SplitConcat(a: string, b: string)
    ensures Split(a + b) == Init(Split(a)) + Split(Last(Split(a)) + b)
    decreases |a|, 1
  {
    if |Split(a)| == 1 {
      SplitOne(a);
    } else if StartsBlank(a) {
      assert (a + b)[2..] == a[2..] + b;
      SplitConcat(a[2..], b);
      assert Init(Split(a)) == [[]] + Init(Split(a[2..]));
    } else {
      SplitInner(a, b);
    }
  }

  lemma {:induction false} SplitInner(a: string, b: string)
    requires |Split(a)| > 1 && !StartsBlank(a)
    ensures Split(a + b) == Init(Split(a)) + Split(Last(Split(a)) + b)
    decreases |a|, 0
  {
    var tail := Split(a[1..]);
    assert (a + b)[1..] == a[1..] + b;
    SplitConcat(a[1..], b);
    ExtendParts(a[0], tail);
    ExtendConcat(a[0], Init(tail), Split(Last(tail) + b));
  }

  lemma {:induction false} SplitOne(s: string)
    requires |Split(s)| == 1
    ensures Split(s) == [s]
  {
    if s != [] && !StartsBlank(s) {
      SplitOne(s[1..]);
      assert [s[0]] + s[1..] == s;
    }
  }

  /** The last part contains no separator, and is the end of the text. */
  lemma {:induction false} LastPart(s: string)
    ensures var last := Last(Split(s)); Split(last) == [last] && |last| <= |s| && s[|s| - |last|..] == last
  {
    if |Split(s)| == 1 {
      SplitOne(s);
    } else if StartsBlank(s) {
      LastPart(s[2..]);
      assert Last(Split(s)) == Last(Split(s[2..]));
    } else {
      LastPart(s[1..]);
      ExtendParts(s[0], Split(s[1..]));
    }
  }

  /** Normalizing a text without CR CR LF leaves no CR LF. */
  lemma {:induction false} NormalizeClears(s: string)
    requires !HasCrCrlf(s)
    ensures !HasCrlf(Normalize(s))
    ensures s != [] && s[0] == '\r' && !CrlfAt(s, 0) ==> Normalize(s) != [] && Normalize(s)[0] == '\r'
    ensures Normalize(s) != [] && Normalize(s)[0] == '\n' ==> s[0] == '\n' || CrlfAt(s, 0)
  {
    if CrlfAt(s, 0) {
      forall i: nat ensures !(CrlfAt(s[2..], i + 1) && s[2..][i] == '\r') { assert !(CrlfAt(s, i + 3) && s[i + 2] == '\r'); }
      NormalizeClears(s[2..]);
      ClearCons('\n', Normalize(s[2..]));
    } else if s != [] {
      forall i: nat ensures !(CrlfAt(s[1..], i + 1) && s[1..][i] == '\r') { assert !(CrlfAt(s, i + 2) && s[i + 1] == '\r'); }
      NormalizeClears(s[1..]);
      assert s[0] == '\r' ==> !CrlfAt(s[1..], 0) by { assert !(CrlfAt(s, 0 + 1) && s[0] == '\r'); }
      ClearCons(s[0], Normalize(s[1..]));
    }
  }

  lemma ClearCons(c: char, s: string)
    requires !HasCrlf(s) && !(c == '\r' && s != [] && s[0] == '\n')
    ensures !HasCrlf([c] + s)
  {
    forall i: nat ensures !CrlfAt([c] + s, i) { if i > 0 { assert !CrlfAt(s, i - 1); } }
  }

  lemma SuffixClear(s: string, k: nat)
    requires !HasCrlf(s) && k <= |s|
    ensures !HasCrlf(s[k..])
  {
    forall i: nat ensures !CrlfAt(s[k..], i) { assert !CrlfAt(s, k + i); }
  }

  lemma PrefixClear(s: string, k: nat)
    requires !HasCrCrlf(s) && k <= |s|
    ensures !HasCrCrlf(s[..k])
  {
    forall i: nat ensures !(CrlfAt(s[..k], i + 1) && s[..k][i] == '\r') { assert !(CrlfAt(s, i + 1) && s[i] == '\r'); }
  }

  /** Normalizing keeps a last character that is no line feed. */
  lemma {:induction false} NormalizeEnd(s: string)
    requires s != [] && s[|s| - 1] != '\r'
    ensures Normalize(s) != [] && Normalize(s)[|Normalize(s)| - 1] != '\r'
  {
    if CrlfAt(s, 0) {
      if |s| > 2 { NormalizeEnd(s[2..]); }
    } else if |s| > 1 {
      NormalizeEnd(s[1..]);
    }
  }

  /** Text that holds no separator and ends no line stays one part when a carriage return follows. */
  lemma SplitReturn(r: string)
    requires Split(r) == [r]
    ensures Split(r + "\r") == [r + "\r"]
    decreases |r|
  {
    if r == [] {
      assert r + "\r" == "\r" && "\r"[1..] == [] && ['\r'] + [] == "\r";
    } else {
      SplitOne(r[1..]);
      SplitReturn(r[1..]);
      assert (r + "\r")[1..] == r[1..] + "\r";
      assert [r[0]] + (r[1..] + "\r") == r + "\r";
    }
  }

  lemma SuffixEnd(s: string, r: string)
    requires |r| <= |s| && s[|s| - |r|..] == r && (s != [] ==> s[|s| - 1] != '\r')
    ensures r != [] ==> r[|r| - 1] != '\r'
  {
  }

  /** The last part of a normalized text is normalized itself. */
  lemma LastClear(a: string)
    requires !HasCrCrlf(a)
    ensures Split(Last(Parts(a))) == [Last(Parts(a))] && Normalize(Last(Parts(a))) == Last(Parts(a))
    ensures var r := Last(Parts(a)); a != [] && a[|a| - 1] != '\r' && r != [] ==> r[|r| - 1] != '\r'
  {
    var n, r := Normalize(a), Last(Parts(a));
    LastPart(n);
    NormalizeClears(a);
    SuffixClear(n, |n| - |r|);
    NormalizeFixed(r);
    if a != [] && a[|a| - 1] != '\r' {
      NormalizeEnd(a);
      SuffixEnd(n, r);
    }
  }

  lemma PartsAppend(a: string, e: string)
    requires !HasCrCrlf(a) && (e == [] || e == "\r")
    ensures Parts(a + e) == Init(Parts(a)) + [Last(Parts(a)) + e]
  {
    var r := Last(Parts(a));
    LastClear(a);
    if e == [] {
      assert a + e == a && r + e == r;
    } else {
      NormalizeConcat(a, e);
      assert Normalize(e) == e;
      SplitConcat(Normalize(a), e);
      SplitReturn(r);
    }
  }

  /** The text after a prefix is split as if the prefix's last part stood in for all of it. */
  lemma PartsAcross(a: string, e: string, b: string)
    requires !HasCrCrlf(a) && (e == [] || e == "\r") && (a != [] && a[|a| - 1] == '\r' ==> e == "\r")
    ensures Parts(a + (e + b)) == Init(Parts(a)) + Parts(Last(Parts(a)) + (e + b))
  {
    var r := Last(Parts(a));
    LastClear(a);
    NormalizeConcat(a, e + b);
    SplitConcat(Normalize(a), Normalize(e + b));
    assert a == [] ==> r == [];
    NormalizeConcat(r, e + b);
  }

  /** One more chunk: decoding what was left over together with it is decoding all text so far. */
  lemma ChunkStep(a: string, b: string)
    requires !HasCrCrlf(a)
    ensures Parts(a + b) == Init(Parts(a)) + Parts(Last(Parts(a)) + b)
  {
    if a != [] && a[|a| - 1] == '\r' {
      var front := a[..|a| - 1];
      PrefixClear(a, |a| - 1);
      PartsAppend(front, "\r");
      PartsAcross(front, "\r", b);
      assert front + "\r" == a && front + ("\r" + b) == a + b;
      assert Last(Parts(front)) + ("\r" + b) == Last(Parts(a)) + b;
    } else {
      PartsAcross(a, [], b);
      assert [] + b == b;
    }
  }

  lemma {:induction false} ChunksFrom(before: string, chunks: seq<string>)
    requires !HasCrCrlf(before + Concat(chunks))
    ensures var (blocks, rest) := Fed(Last(Parts(before)), chunks);
            Parts(before + Concat(chunks)) == Init(Parts(before)) + blocks + [rest]
    decreases |chunks|
  {
    if chunks == [] {
      assert before + [] == before;
    } else {
      var next := before + chunks[0];
      assert next + Concat(chunks[1..]) == before + Concat(chunks);
      PrefixClear(before + Concat(chunks), |before|);
      assert (before + Concat(chunks))[..|before|] == before;
      ChunkStep(before, chunks[0]);
      ChunksFrom(next, chunks[1..]);
      var parts := Parts(Last(Parts(before)) + chunks[0]);
      assert Init(Parts(next)) == Init(Parts(before)) + Init(parts) && Last(Parts(next)) == Last(parts);
    }
  }

  /** However a stream without CR CR LF is cut, the blocks and the rest are those of decoding it at once. */
  lemma ChunkIndependence(chunks: seq<string>)
    requires !HasCrCrlf(Concat(chunks))
    ensures Fed([], chunks) == (Init(Parts(Concat(chunks))), Last(Parts(Concat(chunks))))
  {
    assert [] + Concat(chunks) == Concat(chunks) && Parts([]) == [[]];
    ChunksFrom([], chunks);
    InitLast(Fed([], chunks).0, Fed([], chunks).1, Parts(Concat(chunks)));
  }

  lemma InitLast(blocks: seq<string>, rest: string, parts: seq<string>)
    requires parts == [] + blocks + [rest]
    ensures Init(parts) == blocks && Last(parts) == rest
  {
  }

  // ----- why CR CR LF is excluded -----

  /** How much text the parts stand for, separators included. */
  function Size(parts: seq<string>): nat
    requires parts != []
  {
    if |parts| == 1 then |parts[0]| else |parts[0]| + 2 + Size(parts[1..])
  }

  lemma {:induction false} SplitSize(s: string)
    ensures Size(Split(s)) == |s|
  {
    if s != [] {
      if StartsBlank(s) {
        SplitSize(s[2..]);
        assert Split(s)[1..] == Split(s[2..]);
      } else {
        SplitSize(s[1..]);
        assert |Split(s[1..])| > 1 ==> Split(s)[1..] == Split(s[1..])[1..];
      }
    }
  }

  lemma {:induction false} SizeLast(parts: seq<string>, last: seq<string>)
    requires parts != [] && last != []
    ensures Size(Init(parts) + last) == Size(parts) - |Last(parts)| + Size(last)
  {
    if |parts| == 1 {
      assert Init(parts) + last == last;
    } else {
      SizeLast(parts[1..], last);
      assert (Init(parts) + last)[1..] == Init(parts[1..]) + last;
    }
  }

  lemma {:induction false} NormalizeShrinks(s: string)
    ensures |Normalize(s)| <= |s|
  {
    if CrlfAt(s, 0) { NormalizeShrinks(s[2..]); } else if s != [] { NormalizeShrinks(s[1..]); }
  }

  lemma NormalizeCrCrlf(x: string)
    ensures Normalize(x + "\r\r\n") == Normalize(x) + "\r\n"
  {
    assert x + "\r\r\n" == (x + "\r") + "\r\n";
    NormalizeConcat(x + "\r", "\r\n");
    NormalizeConcat(x, "\r");
    assert "\r\n"[2..] == [] && Normalize("\r\n") == "\n" && Normalize("\r") == "\r";
    assert Normalize(x) + "\r" + "\n" == Normalize(x) + "\r\n";
  }

  lemma SplitCrlf(r: string)
    requires Split(r) == [r]
    ensures Split(r + "\r\n") == [r + "\r\n"]
  {
    SplitReturn(r);
    SplitReturnLine(r + "\r");
    assert (r + "\r") + "\n" == r + "\r\n";
  }

  lemma LastOfConcat(parts: seq<string>, last: string)
    ensures Last(parts + [last]) == last
  {
  }

  /** After CR CR LF a CR LF is left over, although the line ends have been normalized. */
  lemma LeavesCrlf(x: string) returns (front: string)
    ensures Last(Parts(x + "\r\r\n")) == front + "\r\n"
  {
    var m := Normalize(x);
    front := Last(Split(m));
    NormalizeCrCrlf(x);
    SplitConcat(m, "\r\n");
    LastPart(m);
    SplitCrlf(front);
    LastOfConcat(Init(Split(m)), front + "\r\n");
  }

  lemma {:induction false} SplitReturnLine(r: string)
    requires Split(r) == [r] && r != [] && r[|r| - 1] == '\r'
    ensures Split(r + "\n") == [r + "\n"]
  {
    if |r| == 1 {
      assert (r + "\n")[1..] == "\n" && "\n"[1..] == [] && ['\n'] + [] == "\n" && Split("\n") == ["\n"];
      assert [r[0]] + "\n" == r + "\n";
    } else {
      SplitOne(r[1..]);
      SplitReturnLine(r[1..]);
      assert (r + "\n")[1..] == r[1..] + "\n";
      assert [r[0]] + (r[1..] + "\n") == r + "\n";
    }
  }

  lemma ShrinksAgain(front: string, y: string)
    ensures |Normalize(front + "\r\n" + y)| <= |front| + 1 + |Normalize(y)|
  {
    assert front + "\r\n" + y == front + ("\r\n" + y);
    NormalizeConcat(front, "\r\n" + y);
    NormalizeConcat("\r\n", y);
    assert "\r\n"[2..] == [] && Normalize("\r\n") == "\n";
    NormalizeShrinks(front);
  }

  lemma FedOne(buffer: string, b: string)
    ensures Fed(buffer, [b]) == (Init(Parts(buffer + b)), Last(Parts(buffer + b)))
  {
    var parts := Parts(buffer + b);
    assert [b][1..] == [];
    assert Fed(Last(parts), []) == ([], Last(parts));
    assert Init(parts) + [] == Init(parts);
  }

  lemma FedTwo(a: string, b: string)
    ensures var (blocks, rest) := Fed([], [a, b]);
            blocks + [rest] == Init(Parts(a)) + Parts(Last(Parts(a)) + b)
  {
    FedOne(Last(Parts(a)), b);
    assert [] + a == a && [a, b][1..] == [b];
    var second := Parts(Last(Parts(a)) + b);
    assert second == Init(second) + [Last(second)];
  }

  /** Decoding the leftover again with what follows yields less text than decoding all at once. */
  lemma LessText(a: string, front: string, y: string)
    requires Last(Parts(a)) == front + "\r\n" && a != [] && a[|a| - 1] != '\r'
    ensures Size(Init(Parts(a)) + Parts(Last(Parts(a)) + y)) < Size(Parts(a + y))
  {
    var second := Parts(front + "\r\n" + y);
    SizeLast(Parts(a), second);
    SplitSize(Normalize(a));
    SplitSize(Normalize(a + y));
    SplitSize(Normalize(front + "\r\n" + y));
    NormalizeConcat(a, y);
    ShrinksAgain(front, y);
  }

  /** With CR CR LF in it, a stream cut right after that decodes to less text than when decoded at once. */
  lemma CutAfterCrCrlfDiffers(x: string, y: string)
    ensures Fed([], [x + "\r\r\n", y]) != (Init(Parts(x + "\r\r\n" + y)), Last(Parts(x + "\r\r\n" + y)))
  {
    var a := x + "\r\r\n";
    var front := LeavesCrlf(x);
    LessText(a, front, y);
    FedTwo(a, y);
    var once := Parts(a + y);
    assert once == Init(once) + [Last(once)];
  }

  lemma ConcatTwo(a: string, b: string)
    ensures Concat([a, b]) == a + b
  {
    assert [a, b][1..] == [b] && [b][1..] == [] && b + [] == b;
    assert Concat([b]) == b;
  }

  /** Decoding is independent of the cutting exactly for the streams without CR CR LF. */
  lemma IndependentIff(s: string)
    ensures (forall chunks | Concat(chunks) == s :: Fed([], chunks) == (Init(Parts(s)), Last(Parts(s)))) <==> !HasCrCrlf(s)
  {
    if HasCrCrlf(s) {
      var i: nat :| CrlfAt(s, i + 1) && s[i] == '\r';
      var x, y := s[..i], s[i + 3..];
      assert s == x + "\r\r\n" + y;
      CutAfterCrCrlfDiffers(x, y);
      ConcatTwo(x + "\r\r\n", y);
    } else {
      forall chunks | Concat(chunks) == s ensures Fed([], chunks) == (Init(Parts(s)), Last(Parts(s))) {
        ChunkIndependence(chunks);
      }
    }
  }

  // ----- the line-by-line reference -----

  /** Read complete lines one at a time: collect data values, emit them at an empty line. */
  function Dispatch(lines: seq<string>, pending: seq<string>): seq<string>
    decreases |lines|
  {
    if lines == [] then []
    else if lines[0] == [] then Emitted(pending) + Dispatch(lines[1..], [])
    else if IsData(lines[0]) then Dispatch(lines[1..], pending + [TrimStart(lines[0][5..])])
    else Dispatch(lines[1..], pending)
  }

  lemma {:induction false} LinesConcat(a: string, b: string)
    ensures Lines(a + "\n" + b) == Lines(a) + Lines(b)
  {
    if a == [] {
      assert (a + "\n" + b)[1..] == b;
    } else {
      assert (a + "\n" + b)[1..] == a[1..] + "\n" + b;
      LinesConcat(a[1..], b);
      if a[0] != '\n' { ExtendConcat(a[0], Lines(a[1..]), Lines(b)); }
    }
  }

  /** The text of the first part, and what follows its separator. */
  lemma {:induction false} FirstPart(s: string) returns (after: string)
    requires |Split(s)| > 1
    ensures s == Split(s)[0] + "\n\n" + after && Split(after) == Split(s)[1..] && |after| < |s|
  {
    if StartsBlank(s) {
      after := s[2..];
    } else {
      after := FirstPart(s[1..]);
      assert s == [s[0]] + s[1..];
      assert Split(s)[0] == [s[0]] + Split(s[1..])[0] && Split(s)[1..] == Split(s[1..])[1..];
    }
  }

  /** No two line feeds in a row. */
  predicate NoPair(s: string) {
    forall i | 0 <= i < |s| - 1 && s[i] == '\n' :: s[i + 1] != '\n'
  }

  /** The form of a complete block: no two line feeds in a row, and none at the end. */
  predicate Tight(s: string) {
    NoPair(s) && (s != [] ==> s[|s| - 1] != '\n')
  }

  lemma {:induction false} FirstPartTight(s: string)
    ensures if |Split(s)| == 1 then NoPair(s) else Tight(Split(s)[0])
    ensures |Split(s)| > 1 && s[0] != '\n' ==> Split(s)[0] != [] && Split(s)[0][0] == s[0]
  {
    if s != [] && !StartsBlank(s) {
      FirstPartTight(s[1..]);
      if |Split(s)| == 1 {
        forall i | 0 <= i < |s| - 1 && s[i] == '\n' ensures s[i + 1] != '\n' {
          if i > 0 { assert s[1..][i - 1] == '\n' && s[1..][i] == s[i + 1]; }
        }
      } else {
        TightCons(s[0], Split(s[1..])[0]);
      }
    }
  }

  lemma TightCons(c: char, s: string)
    requires Tight(s) && (c == '\n' ==> s != [] && s[0] != '\n')
    ensures Tight([c] + s)
  {
    var longer := [c] + s;
    forall i | 0 <= i < |longer| - 1 && longer[i] == '\n' ensures longer[i + 1] != '\n' {
      if i > 0 { assert s[i - 1] == '\n'; }
    }
  }

  ghost predicate InnerFull(lines: seq<string>) {
    forall i | 0 < i < |lines| - 1 :: lines[i] != []
  }

  /** Only the first line of such text can be empty, and the unfinished last one. */
  lemma {:induction false} OnlyFirstEmpty(s: string)
    requires NoPair(s)
    ensures InnerFull(Lines(s))
    ensures Tight(s) && |Lines(s)| > 1 ==> Lines(s)[|Lines(s)| - 1] != []
    ensures s != [] && s[0] != '\n' ==> Lines(s)[0] != []
  {
    if s != [] {
      assert NoPair(s[1..]) by {
        forall i | 0 <= i < |s[1..]| - 1 && s[1..][i] == '\n' ensures s[1..][i + 1] != '\n' { assert s[i + 1] == '\n'; }
      }
      OnlyFirstEmpty(s[1..]);
      var lines, inner := Lines(s), Lines(s[1..]);
      if s[0] == '\n' {
        assert |s| > 1 ==> s[0 + 1] != '\n';
        assert forall i | 0 < i < |lines| :: lines[i] == inner[i - 1];
      } else {
        assert forall i | 0 < i < |lines| :: lines[i] == inner[i];
      }
    }
  }

  lemma {:induction false} DispatchBlock(lines: seq<string>, more: seq<string>, pending: seq<string>)
    requires forall i | 0 <= i < |lines| :: lines[i] != []
    ensures Dispatch(lines + [[]] + more, pending) == Emitted(pending + DataOf(lines)) + Dispatch(more, [])
  {
    var all := lines + [[]] + more;
    if lines == [] {
      assert all == [[]] + more && all[1..] == more && pending + [] == pending;
    } else {
      assert all[0] == lines[0] && all[1..] == lines[1..] + [[]] + more;
      if IsData(lines[0]) {
        var value := TrimStart(lines[0][5..]);
        DispatchBlock(lines[1..], more, pending + [value]);
        assert pending + [value] + DataOf(lines[1..]) == pending + DataOf(lines);
      } else {
        DispatchBlock(lines[1..], more, pending);
      }
    }
  }

  lemma {:induction false} DispatchRest(lines: seq<string>, pending: seq<string>)
    requires forall i | 0 <= i < |lines| :: lines[i] != []
    ensures Dispatch(lines, pending) == []
  {
    if lines != [] {
      DispatchRest(lines[1..], if IsData(lines[0]) then pending + [TrimStart(lines[0][5..])] else pending);
    }
  }

  /** A leading empty line emits nothing and carries no data. */
  lemma DispatchLeading(lines: seq<string>, rest: seq<string>)
    requires lines != [] && lines[0] == []
    ensures Dispatch(lines + rest, []) == Dispatch(lines[1..] + rest, []) && DataOf(lines) == DataOf(lines[1..])
  {
    assert (lines + rest)[1..] == lines[1..] + rest;
    assert Emitted([]) == [];
    assert [] + Dispatch(lines[1..] + rest, []) == Dispatch(lines[1..] + rest, []);
  }

  lemma LinesLine(s: string, a: string, b: string)
    requires s == a + "\n" + b
    ensures Lines(s) == Lines(a) + Lines(b)
  {
    LinesConcat(a, b);
  }

  lemma LinesOfBlock(s: string, block: string, after: string)
    requires s == block + "\n\n" + after
    ensures Lines(s) == Lines(block) + ([[]] + Lines(after))
  {
    var tail := "\n" + after;
    assert tail == [] + "\n" + after && s == block + "\n" + tail;
    LinesLine(tail, [], after);
    LinesLine(s, block, tail);
  }

  /** Splitting into blocks finds what reading line by line finds. */
  lemma {:induction false} BlocksAreDispatches(s: string)
    ensures ItemsOf(Init(Split(s))) == Dispatch(Init(Lines(s)), [])
    decreases |s|
  {
    FirstPartTight(s);
    if |Split(s)| == 1 {
      SplitOne(s);
      OnlyFirstEmpty(s);
      RestDispatches(Lines(s));
    } else {
      OnlyFirstEmpty(Split(s)[0]);
      var after := FirstPart(s);
      BlocksAreDispatches(after);
      FirstBlockDispatches(s, Split(s), Split(s)[0], after);
    }
  }

  lemma FirstBlockDispatches(s: string, parts: seq<string>, block: string, after: string)
    requires s == block + "\n\n" + after && parts == [block] + Split(after)
    requires forall i | 0 < i < |Lines(block)| :: Lines(block)[i] != []
    requires ItemsOf(Init(Split(after))) == Dispatch(Init(Lines(after)), [])
    ensures ItemsOf(Init(parts)) == Dispatch(Init(Lines(s)), [])
  {
    LinesOfBlock(s, block, after);
    BlockDispatches(Lines(block), Init(Lines(after)));
    InitOfConcat(Lines(block), Lines(after));
    assert Init(parts)[1..] == Init(Split(after)) && Init(parts)[0] == block;
  }

  lemma InitOfConcat(a: seq<string>, b: seq<string>)
    requires b != []
    ensures Init(a + ([[]] + b)) == a + [[]] + Init(b)
  {
  }

  lemma RestDispatches(lines: seq<string>)
    requires lines != [] && InnerFull(lines)
    ensures Dispatch(Init(lines), []) == []
  {
    var complete := Init(lines);
    if complete != [] && complete[0] == [] {
      DispatchLeading(complete, []);
      assert complete + [] == complete && complete[1..] + [] == complete[1..];
      DispatchRest(complete[1..], []);
    } else {
      DispatchRest(complete, []);
    }
  }

  lemma BlockDispatches(lines: seq<string>, more: seq<string>)
    requires lines != [] && forall i | 0 < i < |lines| :: lines[i] != []
    ensures Dispatch(lines + [[]] + more, []) == Emitted(DataOf(lines)) + Dispatch(more, [])
  {
    if lines[0] == [] {
      DispatchLeading(lines, [[]] + more);
      assert lines + ([[]] + more) == lines + [[]] + more && lines[1..] + ([[]] + more) == lines[1..] + [[]] + more;
      DispatchBlock(lines[1..], more, []);
      assert [] + DataOf(lines[1..]) == DataOf(lines[1..]);
    } else {
      DispatchBlock(lines, more, []);
      assert [] + DataOf(lines) == DataOf(lines);
    }
  }

  /** However a stream without CR CR LF is cut, the emitted items are those of reading its lines. */
  lemma StreamIsLineReader(chunks: seq<string>)
    requires !HasCrCrlf(Concat(chunks))
    ensures ItemsOf(Fed([], chunks).0) == Dispatch(Init(Lines(Normalize(Concat(chunks)))), [])
  {
    ChunkIndependence(chunks);
    BlocksAreDispatches(Normalize(Concat(chunks)));
  }

  // ----- the server's encoder -----

  /** One event as encode_sse is given it: the three texts hold no line ends, and the JSON text
      starts with a brace. */
  datatype Frame = Frame(id: string, kind: string, json: string)

  predicate Plain(s: string) {
    forall i | 0 <= i < |s| :: s[i] != '\r' && s[i] != '\n'
  }

  predicate Sendable(f: Frame) {
    Plain(f.id) && Plain(f.kind) && Plain(f.json) && f.json != [] && f.json[0] == '{'
  }

  function Block(f: Frame): string {
    ("id: " + f.id) + "\n" + (("event: " + f.kind) + "\n" + ("data: " + f.json))
  }

  function EncodeSse(f: Frame): string {
    Block(f) + "\n\n"
  }

  function EncodeAll(frames: seq<Frame>): string {
    if frames == [] then [] else EncodeSse(frames[0]) + EncodeAll(frames[1..])
  }

  function Jsons(frames: seq<Frame>): seq<string> {
    if frames == [] then [] else [frames[0].json] + Jsons(frames[1..])
  }

  function Blocks(frames: seq<Frame>): seq<string> {
    if frames == [] then [] else [Block(frames[0])] + Blocks(frames[1..])
  }

  lemma {:induction false} PlainLine(s: string)
    requires Plain(s)
    ensures Lines(s) == [s]
  {
    if s != [] {
      PlainLine(s[1..]);
      assert [s[0]] + s[1..] == s;
    }
  }

  lemma BlockLines(f: Frame)
    requires Sendable(f)
    ensures Lines(Block(f)) == ["id: " + f.id, "event: " + f.kind, "data: " + f.json]
  {
    LinesConcat("id: " + f.id, ("event: " + f.kind) + "\n" + ("data: " + f.json));
    LinesConcat("event: " + f.kind, "data: " + f.json);
    PlainLine("id: " + f.id);
    PlainLine("event: " + f.kind);
    PlainLine("data: " + f.json);
  }

  lemma BlockData(f: Frame)
    requires Sendable(f)
    ensures Emitted(DataOf(Lines(Block(f)))) == [f.json]
  {
    BlockLines(f);
    var data := "data: " + f.json;
    SkipLine("id: " + f.id, ["event: " + f.kind, data]);
    SkipLine("event: " + f.kind, [data]);
    assert Lines(Block(f)) == ["id: " + f.id] + ["event: " + f.kind, data] && ["event: " + f.kind, data] == ["event: " + f.kind] + [data];
    assert data[..5] == "data:" && data[5..] == " " + f.json && (" " + f.json)[1..] == f.json;
    assert TrimStart(data[5..]) == f.json;
    var one: seq<string> := [data];
    assert one[0] == data && one[1..] == [];
    assert DataOf(one) == [f.json];
  }

  lemma SkipLine(line: string, rest: seq<string>)
    requires line != [] && line[0] != 'd'
    ensures DataOf([line] + rest) == DataOf(rest)
  {
    assert "data:"[0] == 'd';
    assert ([line] + rest)[1..] == rest;
  }

  lemma {:induction false} SplitBlock(block: string, after: string)
    requires Tight(block)
    ensures Split(block + "\n\n" + after) == [block] + Split(after)
  {
    var s := block + "\n\n" + after;
    if block == [] {
      assert s[2..] == after;
    } else {
      assert s[1..] == block[1..] + "\n\n" + after;
      assert !StartsBlank(s) by { assert |block| > 1 ==> s[1] == block[1]; assert s[0] == block[0]; }
      assert Tight(block[1..]);
      SplitBlock(block[1..], after);
      ExtendConcat(block[0], [block[1..]], Split(after));
      assert [block[0]] + block[1..] == block;
    }
  }

  lemma BlockTight(f: Frame)
    requires Sendable(f)
    ensures Tight(Block(f)) && forall i | 0 <= i < |EncodeSse(f)| :: EncodeSse(f)[i] != '\r'
  {
    var a, b, c := "id: " + f.id, "event: " + f.kind, "data: " + f.json;
    var s := Block(f);
    assert |s| == |a| + 1 + |b| + 1 + |c|;
    assert forall i | 0 <= i < |a| :: s[i] == a[i];
    assert forall i | 0 <= i < |b| :: s[|a| + 1 + i] == b[i];
    assert forall i | 0 <= i < |c| :: s[|a| + |b| + 2 + i] == c[i];
    assert forall i | 0 <= i < |s| && s[i] == '\n' :: i == |a| || i == |a| + 1 + |b|;
    assert b[0] == 'e' && c[0] == 'd';
  }

  lemma {:induction false} EncodedParts(frames: seq<Frame>)
    requires forall i | 0 <= i < |frames| :: Sendable(frames[i])
    ensures !HasCrlf(EncodeAll(frames)) && Split(EncodeAll(frames)) == Blocks(frames) + [[]]
    ensures ItemsOf(Blocks(frames)) == Jsons(frames)
    ensures forall i | 0 <= i < |EncodeAll(frames)| :: EncodeAll(frames)[i] != '\r'
  {
    if frames != [] {
      EncodedParts(frames[1..]);
      var head, tail := EncodeSse(frames[0]), EncodeAll(frames[1..]);
      BlockTight(frames[0]);
      SplitBlock(Block(frames[0]), tail);
      BlockData(frames[0]);
      assert Blocks(frames)[1..] == Blocks(frames[1..]);
      forall i: nat ensures !CrlfAt(head + tail, i) {
        assert i < |head + tail| ==> (head + tail)[i] != '\r';
      }
    }
  }

  /** What the server encodes is what the client reads, however the stream is cut: every event's JSON
      text, in order, and nothing left over. */
  lemma EncodeDecodeRoundTrip(frames: seq<Frame>, chunks: seq<string>)
    requires forall i | 0 <= i < |frames| :: Sendable(frames[i])
    requires Concat(chunks) == EncodeAll(frames)
    ensures ItemsOf(Fed([], chunks).0) == Jsons(frames) && Fed([], chunks).1 == []
  {
    var s := EncodeAll(frames);
    EncodedParts(frames);
    assert !HasCrCrlf(s);
    ChunkIndependence(chunks);
    NormalizeFixed(s);
    assert Init(Blocks(frames) + [[]]) == Blocks(frames);
  }
}
