/**
 The installation id kept in one file of the data directory and read back at every start. Reads may
 fail, writes may fail before or after the file has been truncated, and their errors are ignored.
 */
module Cookie {
  import opened Options
  import opened Uuids

  /** What became of a write: the file could not be opened, or was truncated and received so many bytes. */
  datatype Write = OpenFails | Wrote(bytes: nat)

  /** One start of the server: whether the id is wanted, whether a read would succeed, the random bytes drawn, and
      what would become of a write. */
  datatype Start = Start(enabled: bool, readable: bool, entropy: Uuid, write: Write)

  type File = Option<seq<Byte>>

  /** `uuid.NewV4`: version 4 and the RFC variant over random bytes, section 5.4 of RFC 9562. */
  function NewV4(r: Uuid): Uuid {
    r[6 := r[6] % 16 + 64][8 := r[8] % 64 + 128]
  }

  function FromBytesOrNil(b: seq<Byte>): Uuid {
    if |b| == 16 then b else NIL
  }

  function HexDigit(n: int): char
    requires 0 <= n < 16
  {
    if n < 10 then ('0' as int + n) as char else ('a' as int + n - 10) as char
  }

  function Hex(b: seq<Byte>): (s: string)
    ensures |s| == 2 * |b|
  {
    if b == [] then "" else [HexDigit(b[0] / 16), HexDigit(b[0] % 16)] + Hex(b[1..])
  }

  function Dash(a: string, b: string): (s: string)
    ensures |s| == |a| + 1 + |b|
  {
    a + "-" + b
  }

  /** `cookie.String()`. */
  function Text(u: Uuid): string {
    Dash(Dash(Dash(Dash(Hex(u[..4]), Hex(u[4..6])), Hex(u[6..8])), Hex(u[8..10])), Hex(u[10..]))
  }

  /** Whether the file gives an id. */
  predicate Holds(file: File, u: Uuid) {
    file == Some(u) && u != NIL
  }

  predicate Loads(file: File, s: Start) {
    s.readable && file.Some? && |file.value| == 16 && file.value != NIL
  }

  /** The id an enabled start uses. */
  function Issued(file: File, s: Start): Uuid {
    if Loads(file, s) then file.value else NewV4(s.entropy)
  }

  /** The file after a start. */
  function After(file: File, s: Start): File {
    if !s.enabled || Loads(file, s) then file
    else
      match s.write
      case OpenFails => file
      case Wrote(n) => Some(NewV4(s.entropy)[..if n < 16 then n else 16])
  }

  class DataDir {
    var file: File

    constructor ()
      ensures file == None
    {
      file := None;
    }

    /** `newOrLoadCookie`. */
    method NewOrLoadCookie(s: Start) returns (id: string)
      modifies this
      ensures file == After(old(file), s)
      ensures id == if s.enabled then Text(Issued(old(file), s)) else ""
    {
      if !s.enabled {
        return "";
      }
      var failed := !s.readable || file.None?;
      var b: seq<Byte> := if failed then [] else file.value;
      var cookie := FromBytesOrNil(b);
      if failed || cookie == NIL {
        cookie := NewV4(s.entropy);
        match s.write {
          case OpenFails =>
          case Wrote(n) => file := Some(cookie[..if n < 16 then n else 16]);
        }
      }
      return Text(cookie);
    }
  }

  /** A new id is a version 4 id and never the nil id. */
  lemma NewV4IsVersion4(r: Uuid)
    ensures NewV4(r)[6] / 16 == 4 && NewV4(r)[8] / 64 == 2 && NewV4(r) != NIL
  {
    assert NewV4(r)[6] >= 64 && NIL[6] == 0;
  }

  /** Two draws that give the same id: they differ at most in the six bits the version and the variant take. */
  predicate SameRandom(r: Uuid, q: Uuid) {
    && (forall i | 0 <= i < 16 && i != 6 && i != 8 :: r[i] == q[i])
    && r[6] % 16 == q[6] % 16 && r[8] % 64 == q[8] % 64
  }

  /** All the other bits of an id are the random ones. */
  lemma NewV4KeepsBits(r: Uuid)
    ensures SameRandom(NewV4(r), r)
  {
  }

  lemma SameIdIff(r: Uuid, q: Uuid)
    ensures NewV4(r) == NewV4(q) <==> SameRandom(r, q)
  {
    NewV4KeepsBits(r);
    NewV4KeepsBits(q);
  }

  lemma {:induction false} HexInjective(a: seq<Byte>, b: seq<Byte>)
    requires |a| == |b| && Hex(a) == Hex(b)
    ensures a == b
  {
    if a != [] {
      var x, y := Hex(a), Hex(b);
      assert x[2..] == Hex(a[1..]) && y[2..] == Hex(b[1..]);
      assert x[0] == y[0] && x[1] == y[1];
      HexInjective(a[1..], b[1..]);
      assert a == [a[0]] + a[1..] && b == [b[0]] + b[1..];
    }
  }

  lemma DashInjective(a: string, b: string, c: string, d: string)
    requires |b| == |d| && Dash(a, b) == Dash(c, d)
    ensures a == c && b == d
  {
    assert a == Dash(a, b)[..|a|] && c == Dash(c, d)[..|c|];
    assert b == Dash(a, b)[|a| + 1..] && d == Dash(c, d)[|c| + 1..];
  }

  /** The text of an id determines it, so equal texts are equal ids. */
  lemma TextInjective(u: Uuid, w: Uuid)
    requires Text(u) == Text(w)
    ensures u == w
  {
    var u1, w1 := Dash(Hex(u[..4]), Hex(u[4..6])), Dash(Hex(w[..4]), Hex(w[4..6]));
    var u2, w2 := Dash(u1, Hex(u[6..8])), Dash(w1, Hex(w[6..8]));
    var u3, w3 := Dash(u2, Hex(u[8..10])), Dash(w2, Hex(w[8..10]));
    DashInjective(u3, Hex(u[10..]), w3, Hex(w[10..]));
    DashInjective(u2, Hex(u[8..10]), w2, Hex(w[8..10]));
    DashInjective(u1, Hex(u[6..8]), w1, Hex(w[6..8]));
    DashInjective(Hex(u[..4]), Hex(u[4..6]), Hex(w[..4]), Hex(w[4..6]));
    HexInjective(u[..4], w[..4]);
    HexInjective(u[4..6], w[4..6]);
    HexInjective(u[6..8], w[6..8]);
    HexInjective(u[8..10], w[8..10]);
    HexInjective(u[10..], w[10..]);
    assert u == u[..4] + u[4..6] + u[6..8] + u[8..10] + u[10..];
    assert w == w[..4] + w[4..6] + w[6..8] + w[8..10] + w[10..];
  }

  // ----- The text, character by character -----

  const SIXTEEN := "0123456789abcdef"

  lemma HexDigitIs(n: int)
    requires 0 <= n < 16
    ensures HexDigit(n) == SIXTEEN[n]
  {
  }

  lemma {:induction false} HexAt(b: seq<Byte>, i: nat)
    requires i < |b|
    ensures Hex(b)[2 * i] == SIXTEEN[b[i] / 16] && Hex(b)[2 * i + 1] == SIXTEEN[b[i] % 16]
  {
    HexDigitIs(b[0] / 16);
    HexDigitIs(b[0] % 16);
    if i > 0 {
      HexAt(b[1..], i - 1);
    }
  }

  /** Where the digits of byte i stand: after the dashes that come before it. */
  function Position(i: nat): nat {
    2 * i + if i < 4 then 0 else if i < 6 then 1 else if i < 8 then 2 else if i < 10 then 3 else 4
  }

  /** Five groups of digits of 4, 2, 2, 2 and 6 bytes between four dashes, the digits in lower case, the upper half of a
      byte first. */
  lemma TextIs(u: Uuid, i: nat)
    requires i < 16
    ensures |Text(u)| == 36
    ensures Text(u)[8] == Text(u)[13] == Text(u)[18] == Text(u)[23] == '-'
    ensures Text(u)[Position(i)] == SIXTEEN[u[i] / 16] && Text(u)[Position(i) + 1] == SIXTEEN[u[i] % 16]
  {
    var u1 := Dash(Hex(u[..4]), Hex(u[4..6]));
    var u2 := Dash(u1, Hex(u[6..8]));
    var u3 := Dash(u2, Hex(u[8..10]));
    if i < 4 {
      HexAt(u[..4], i);
    } else if i < 6 {
      HexAt(u[4..6], i - 4);
    } else if i < 8 {
      HexAt(u[6..8], i - 6);
    } else if i < 10 {
      HexAt(u[8..10], i - 8);
    } else {
      HexAt(u[10..], i - 10);
    }
  }

  // ----- Sequences of starts -----

  function FileAfter(file: File, starts: seq<Start>): File {
    if starts == [] then file else After(FileAfter(file, starts[..|starts| - 1]), starts[|starts| - 1])
  }

  /** What a start returns. */
  function Returned(file: File, s: Start): string {
    if s.enabled then Text(Issued(file, s)) else ""
  }

  /** What a sequence of starts returns, one text a start. */
  function Texts(file: File, starts: seq<Start>): (ts: seq<string>)
    ensures |ts| == |starts|
  {
    seq(|starts|, i requires 0 <= i < |starts| => Returned(FileAfter(file, starts[..i]), starts[i]))
  }

  lemma TextsStep(file: File, starts: seq<Start>, n: nat)
    requires n < |starts|
    ensures Texts(file, starts[..n + 1]) ==
            Texts(file, starts[..n]) + [Returned(FileAfter(file, starts[..n]), starts[n])]
  {
    var more, fewer := starts[..n + 1], starts[..n];
    forall i | 0 <= i < n ensures Texts(file, more)[i] == Texts(file, fewer)[i] {
      SameText(file, more, fewer, i);
    }
    assert more[..n] == fewer;
  }

  lemma SameText(file: File, more: seq<Start>, fewer: seq<Start>, i: nat)
    requires i < |fewer| <= |more| && fewer == more[..|fewer|]
    ensures Texts(file, more)[i] == Texts(file, fewer)[i]
  {
    assert more[..i] == fewer[..i];
  }

  /** The starts themselves, one after the other on one data directory. */
  method RunStarts(dir: DataDir, starts: seq<Start>) returns (ts: seq<string>)
    modifies dir
    ensures ts == Texts(old(dir.file), starts) && dir.file == FileAfter(old(dir.file), starts)
  {
    ts := [];
    assert starts[..0] == [];
    for n := 0 to |starts|
      invariant ts == Texts(old(dir.file), starts[..n]) && dir.file == FileAfter(old(dir.file), starts[..n])
    {
      TextsStep(old(dir.file), starts, n);
      FileStep(old(dir.file), starts, n);
      var t := dir.NewOrLoadCookie(starts[n]);
      ts := ts + [t];
    }
    assert starts[..|starts|] == starts;
  }

  lemma FileStep(file: File, starts: seq<Start>, i: nat)
    requires i < |starts|
    ensures FileAfter(file, starts[..i + 1]) == After(FileAfter(file, starts[..i]), starts[i])
  {
    assert starts[..i + 1][..i] == starts[..i];
  }

  /** What one start returns and leaves behind. */
  ghost predicate Answers(f: File, s: Start, t: string, f': File) {
    && (!s.enabled ==> t == "" && f' == f)
    && (s.enabled ==> t != "" && t != Text(NIL))
    && (s.enabled && Loads(f, s) ==> t == Text(f.value) && f' == f)
    && (s.enabled && !Loads(f, s) ==> t == Text(NewV4(s.entropy)) && NewV4(s.entropy)[6] / 16 == 4)
  }

  lemma OneStart(f: File, s: Start)
    ensures Answers(f, s, Returned(f, s), After(f, s))
  {
    NewV4IsVersion4(s.entropy);
    if Text(Issued(f, s)) == Text(NIL) {
      TextInjective(Issued(f, s), NIL);
    }
  }

  /** Two enabled starts that find no id return the same text only if they draw the same random bits. */
  lemma FreshTextsIff(f: File, s: Start, f': File, s': Start)
    requires s.enabled && s'.enabled && !Loads(f, s) && !Loads(f', s')
    ensures Returned(f, s) == Returned(f', s') <==> SameRandom(s.entropy, s'.entropy)
  {
    SameIdIff(s.entropy, s'.entropy);
    if Returned(f, s) == Returned(f', s') {
      TextInjective(NewV4(s.entropy), NewV4(s'.entropy));
    }
  }

  /** Over every sequence of starts, with any failures, on any file: a disabled start returns the empty text and leaves
      the file alone; an enabled one never returns the empty text or the text of the nil id, and it returns the text
      of the file's content, and leaves the file alone, exactly when it could read an id there; otherwise the text is
      that of the id just drawn, a version 4 id. */
  lemma NeverNil(file: File, starts: seq<Start>, i: nat)
    requires i < |starts|
    ensures Answers(FileAfter(file, starts[..i]), starts[i], Texts(file, starts)[i], FileAfter(file, starts[..i + 1]))
  {
    FileStep(file, starts, i);
    OneStart(FileAfter(file, starts[..i]), starts[i]);
  }

  /** One start keeps a stored id exactly when it does not replace it: it is disabled, or can read the file, or cannot
      open it for writing, or happens to write the very same id in full. */
  lemma KeepsIff(u: Uuid, s: Start)
    requires u != NIL
    ensures After(Some(u), s) == Some(u) <==>
              !s.enabled || s.readable || s.write.OpenFails? || (NewV4(s.entropy) == u && s.write.bytes >= 16)
  {
    if s.enabled && !s.readable && s.write.Wrote? {
      var v := NewV4(s.entropy);
      assert s.write.bytes >= 16 ==> v[..16] == v;
    }
  }

  ghost predicate Keeps(s: Start) {
    !s.enabled || s.readable || s.write.OpenFails?
  }

  /** Once the id is stored in full, it is the id of every later start that can read the file, for as long as no start
      has failed to read the file and yet opened it for writing. */
  lemma {:induction false} StoredIdSticks(u: Uuid, starts: seq<Start>, s: Start)
    requires u != NIL && forall i | 0 <= i < |starts| :: Keeps(starts[i])
    ensures FileAfter(Some(u), starts) == Some(u)
    ensures s.readable ==> Issued(FileAfter(Some(u), starts), s) == u
    decreases |starts|
  {
    if starts != [] {
      StoredIdSticks(u, starts[..|starts| - 1], s);
      KeepsIff(u, starts[|starts| - 1]);
    }
  }

  /** Exactly then: unless the same id is drawn again, the stored id survives a sequence of starts if and only if no
      start failed to read the file and yet opened it for writing. */
  lemma {:induction false} SticksIff(u: Uuid, starts: seq<Start>)
    requires u != NIL && forall i | 0 <= i < |starts| :: NewV4(starts[i].entropy) != u
    ensures FileAfter(Some(u), starts) == Some(u) <==> forall i | 0 <= i < |starts| :: Keeps(starts[i])
    decreases |starts|
  {
    if starts != [] {
      var n := |starts| - 1;
      SticksIff(u, starts[..n]);
      if FileAfter(Some(u), starts[..n]) == Some(u) {
        KeepsIff(u, starts[n]);
        assert forall i | 0 <= i < n :: Keeps(starts[..n][i]) && starts[..n][i] == starts[i];
      } else {
        LostForGood(FileAfter(Some(u), starts[..n]), u, starts[n]);
        var i :| 0 <= i < n && !Keeps(starts[..n][i]);
        assert !Keeps(starts[i]);
      }
    }
  }

  lemma LostForGood(file: File, u: Uuid, s: Start)
    requires file != Some(u) && NewV4(s.entropy) != u
    ensures After(file, s) != Some(u)
  {
    PrefixDiffers(NewV4(s.entropy), u, if s.write.Wrote? && s.write.bytes < 16 then s.write.bytes else 16);
  }

  lemma PrefixDiffers(v: Uuid, u: Uuid, n: nat)
    requires v != u && n <= 16
    ensures v[..n] != u
  {
    if n < 16 {
      assert |v[..n]| < 16;
    } else {
      assert v[..n] == v;
    }
  }

  /** Whether the id an enabled start used is in the file afterwards: it was read there, or has been written in full, or
      was there unread and has been drawn once more. */
  predicate Stores(file: File, s: Start) {
    Loads(file, s) || (if s.write.Wrote? then s.write.bytes >= 16 else file == Some(NewV4(s.entropy)))
  }

  lemma StoresIff(file: File, s: Start)
    requires s.enabled
    ensures After(file, s) == Some(Issued(file, s)) <==> Stores(file, s)
  {
    var v := NewV4(s.entropy);
    assert v[..16] == v;
  }

  lemma {:induction false} NeverFound(file: File, u: Uuid, starts: seq<Start>)
    requires file != Some(u) && forall i | 0 <= i < |starts| :: NewV4(starts[i].entropy) != u
    ensures FileAfter(file, starts) != Some(u)
    decreases |starts|
  {
    if starts != [] {
      var n := |starts| - 1;
      NeverFound(file, u, starts[..n]);
      LostForGood(FileAfter(file, starts[..n]), u, starts[n]);
    }
  }

  lemma {:induction false} FileAfterSplit(file: File, starts: seq<Start>, i: nat)
    requires i <= |starts|
    ensures FileAfter(file, starts) == FileAfter(FileAfter(file, starts[..i]), starts[i..])
    decreases |starts|
  {
    if i == |starts| {
      assert starts[..i] == starts && starts[i..] == [];
    } else {
      var n := |starts| - 1;
      FileAfterSplit(file, starts[..n], i);
      assert starts[..n][..i] == starts[..i];
      assert starts[i..][..|starts[i..]| - 1] == starts[..n][i..];
    }
  }

  /** The id an enabled start used is in the file after any further starts exactly when it was stored and kept. */
  lemma FoundIff(file: File, s: Start, starts: seq<Start>)
    requires s.enabled && forall k | 0 <= k < |starts| :: NewV4(starts[k].entropy) != Issued(file, s)
    ensures FileAfter(After(file, s), starts) == Some(Issued(file, s)) <==>
              Stores(file, s) && forall k | 0 <= k < |starts| :: Keeps(starts[k])
  {
    NewV4IsVersion4(s.entropy);
    StoresIff(file, s);
    if Stores(file, s) {
      SticksIff(Issued(file, s), starts);
    } else {
      NeverFound(After(file, s), Issued(file, s), starts);
    }
  }

  /** The file a later start finds, from an earlier one on. */
  lemma FileBetween(file: File, starts: seq<Start>, i: nat, j: nat)
    requires i < j <= |starts|
    ensures FileAfter(file, starts[..j]) == FileAfter(After(FileAfter(file, starts[..i]), starts[i]), starts[i + 1..j])
  {
    assert starts[..i + 1][..i] == starts[..i] && starts[..j][..i + 1] == starts[..i + 1];
    assert starts[..j][i + 1..] == starts[i + 1..j];
    FileAfterSplit(file, starts[..j], i + 1);
  }

  /** A start returns the text of an id it does not draw exactly when it reads that id. */
  lemma ReturnsIff(file: File, s: Start, u: Uuid)
    requires s.enabled && u != NIL && NewV4(s.entropy) != u
    ensures Returned(file, s) == Text(u) <==> s.readable && file == Some(u)
  {
    if Returned(file, s) == Text(u) {
      TextInjective(Issued(file, s), u);
    }
  }

  /** Of any two enabled starts of a sequence, the later returns the same text as the earlier if and only if it can read
      the file, the earlier one's id was stored, and no start in between failed to read the file and yet opened it for
      writing; provided that the id is not drawn again. */
  lemma SameTextIff(file: File, starts: seq<Start>, i: nat, j: nat)
    requires i < j < |starts| && starts[i].enabled && starts[j].enabled
    requires forall k | i < k <= j :: NewV4(starts[k].entropy) != Issued(FileAfter(file, starts[..i]), starts[i])
    ensures Texts(file, starts)[j] == Texts(file, starts)[i] <==>
              && starts[j].readable && Stores(FileAfter(file, starts[..i]), starts[i])
              && forall k | i < k < j :: Keeps(starts[k])
  {
    var f, s, between := FileAfter(file, starts[..i]), starts[i], starts[i + 1..j];
    FileBetween(file, starts, i, j);
    NewV4IsVersion4(s.entropy);
    ReturnsIff(FileAfter(After(f, s), between), starts[j], Issued(f, s));
    forall k | 0 <= k < |between| ensures between[k] == starts[i + 1 + k] {
    }
    FoundIff(f, s, between);
    assert forall k | i < k < j :: starts[k] == between[k - i - 1];
  }

  /** From a start that had to draw an id and wrote all of it. */
  lemma WrittenIdSticks(file: File, first: Start, starts: seq<Start>, s: Start)
    requires first.enabled && !Loads(file, first) && first.write.Wrote? && first.write.bytes >= 16
    requires forall i | 0 <= i < |starts| :: Keeps(starts[i])
    requires s.readable
    ensures Issued(FileAfter(After(file, first), starts), s) == Issued(file, first)
  {
    var u := NewV4(first.entropy);
    NewV4IsVersion4(first.entropy);
    assert u[..16] == u;
    StoredIdSticks(u, starts, s);
  }

  /** The condition cannot be dropped: one start that fails to read but can write replaces the id for good. */
  lemma UnreadableStartReplaces(u: Uuid, entropy: Uuid, s: Start)
    requires u != NIL && NewV4(entropy) != u && s.readable
    ensures var bad := Start(true, false, entropy, Wrote(16));
            Issued(FileAfter(Some(u), [bad]), s) == NewV4(entropy) != u
  {
    var bad := Start(true, false, entropy, Wrote(16));
    NewV4IsVersion4(entropy);
    assert [bad][..0] == [] && NewV4(entropy)[..16] == NewV4(entropy);
    assert FileAfter(Some(u), []) == Some(u);
  }
}
