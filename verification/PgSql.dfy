/** The translation of '?' and ':name' placeholders for the PostgreSQL driver. */
module PgSql {
  import opened Wrappers

  /** What a statement is to the driver: literal characters and holes for parameters, which are
      positional or named. */
  datatype Piece = Lit(c: char) | Hole(name: Option<string>)

  /** Which characters count as letters, and as letters or digits. */
  datatype Alphabet = Alphabet(alpha: char -> bool, alnum: char -> bool)

  /** Letters are letters or digits, and no character with a meaning in the translation is either. */
  ghost predicate Proper(a: Alphabet) {
    && (forall c :: a.alpha(c) ==> a.alnum(c))
    && !a.alnum('\'') && !a.alnum('"') && !a.alnum(':') && !a.alnum(')')
  }

  predicate StartsName(a: Alphabet, c: char) {
    a.alpha(c) || c == '_'
  }

  predicate InName(a: Alphabet, c: char) {
    a.alnum(c) || c == '_'
  }

  // ---------------------------------------------------------------------------------------------
  // What the statement means
  // ---------------------------------------------------------------------------------------------

  /** The quotation mark of the literal that position `i` is in, if it is in one. */
  function QuoteAt(sql: string, i: nat): Option<char>
    requires i <= |sql|
  {
    if i == 0 then None
    else
      var open := QuoteAt(sql, i - 1);
      var c := sql[i - 1];
      if open.Some? then (if c == open.value then None else open)
      else if c == '\'' || c == '"' then Some(c)
      else None
  }

  /** A placeholder starts here: an unquoted '?', or an unquoted ':name' that is not part of '::'. */
  predicate IsHole(a: Alphabet, sql: string, named: bool, i: nat)
    requires i < |sql|
  {
    && QuoteAt(sql, i).None?
    && if named then sql[i] == ':' && i + 1 < |sql| && StartsName(a, sql[i + 1]) && !(i > 0 && sql[i - 1] == ':')
       else sql[i] == '?'
  }

  function NameEnd(a: Alphabet, sql: string, i: nat): (j: nat)
    requires i <= |sql|
    ensures i <= j <= |sql|
    ensures forall k :: i <= k < j ==> InName(a, sql[k])
    ensures j < |sql| ==> !InName(a, sql[j])
    decreases |sql| - i
  {
    if i == |sql| || !InName(a, sql[i]) then i else NameEnd(a, sql, i + 1)
  }

  /** The piece at position `i`, and where the next one starts. */
  function PieceAt(a: Alphabet, sql: string, named: bool, i: nat): Piece
    requires i < |sql|
  {
    if !IsHole(a, sql, named, i) then Lit(sql[i])
    else Hole(if named then Some(sql[i + 1..NameEnd(a, sql, i + 1)]) else None)
  }

  function NextAt(a: Alphabet, sql: string, named: bool, i: nat): (j: nat)
    requires i < |sql|
    ensures i < j <= |sql|
  {
    if named && IsHole(a, sql, named, i) then NameEnd(a, sql, i + 1) else i + 1
  }

  /** The pieces of the statement from position `i`. */
  function Pieces(a: Alphabet, sql: string, named: bool, i: nat): seq<Piece>
    requires i <= |sql|
    decreases |sql| - i
  {
    if i == |sql| then [] else [PieceAt(a, sql, named, i)] + Pieces(a, sql, named, NextAt(a, sql, named, i))
  }

  /** The text a piece was written as. */
  function SourceOne(p: Piece): string {
    match p
    case Lit(c) => [c]
    case Hole(None) => "?"
    case Hole(Some(name)) => ":" + name
  }

  function Source(pieces: seq<Piece>): string {
    if pieces == [] then "" else SourceOne(pieces[0]) + Source(pieces[1..])
  }

  function Holes(pieces: seq<Piece>): seq<Piece> {
    if pieces == [] then []
    else if pieces[0].Hole? then [pieces[0]] + Holes(pieces[1..])
    else Holes(pieces[1..])
  }

  /** The placeholders of the statement, found at every position on its own. */
  function Placeholders(a: Alphabet, sql: string, named: bool, i: nat): seq<Piece>
    requires i <= |sql|
    decreases |sql| - i
  {
    if i == |sql| then []
    else if IsHole(a, sql, named, i) then
      [PieceAt(a, sql, named, i)] + Placeholders(a, sql, named, i + 1)
    else Placeholders(a, sql, named, i + 1)
  }

  // ---------------------------------------------------------------------------------------------
  // What the driver reads
  // ---------------------------------------------------------------------------------------------

  function Encode(pieces: seq<Piece>): string {
    if pieces == [] then ""
    else EncodeOne(pieces[0]) + Encode(pieces[1..])
  }

  function EncodeOne(p: Piece): string {
    match p
    case Lit(c) => if c == '%' then "%%" else [c]
    case Hole(None) => "%s"
    case Hole(Some(name)) => "%(" + name + ")s"
  }

  function Closing(t: string, i: nat): (k: nat)
    requires i <= |t|
    ensures i <= k <= |t|
    ensures forall j :: i <= j < k ==> t[j] != ')'
    ensures k < |t| ==> t[k] == ')'
    decreases |t| - i
  {
    if i == |t| || t[i] == ')' then i else Closing(t, i + 1)
  }

  function Before(p: Piece, rest: Option<seq<Piece>>): Option<seq<Piece>> {
    if rest.None? then None else Some([p] + rest.value)
  }

  /** The driver's reading of a statement: '%%' is a percent sign, '%s' and '%(name)s' are holes,
      and any other '%' is an error. */
  function Decode(t: string): Option<seq<Piece>> {
    if t == "" then Some([])
    else if t[0] != '%' then Before(Lit(t[0]), Decode(t[1..]))
    else if |t| == 1 then None
    else if t[1] == '%' then Before(Lit('%'), Decode(t[2..]))
    else if t[1] == 's' then Before(Hole(None), Decode(t[2..]))
    else if t[1] == '(' then
      var k := Closing(t, 2);
      if k + 1 < |t| && t[k + 1] == 's' && k > 2 then Before(Hole(Some(t[2..k])), Decode(t[k + 2..])) else None
    else None
  }

  predicate Readable(pieces: seq<Piece>) {
    forall p :: p in pieces && p.Hole? && p.name.Some? ==> p.name.value != "" && ')' !in p.name.value
  }

  lemma {:induction false} ClosingIs(t: string, i: nat, k: nat)
    requires i <= k < |t| && t[k] == ')' && forall j :: i <= j < k ==> t[j] != ')'
    ensures Closing(t, i) == k
    decreases k - i
  {
  }

  lemma ClosesAt(name: string, rest: string)
    requires ')' !in name
    ensures Closing("%(" + name + ")s" + rest, 2) == 2 + |name|
  {
    var t := "%(" + name + ")s" + rest;
    forall j | 2 <= j < 2 + |name| ensures t[j] != ')' {
      assert t[j] == name[j - 2];
    }
    ClosingIs(t, 2, 2 + |name|);
  }

  lemma DecodeName(name: string, rest: string)
    requires name != "" && ')' !in name
    ensures Decode("%(" + name + ")s" + rest) == Before(Hole(Some(name)), Decode(rest))
  {
    var t := "%(" + name + ")s" + rest;
    ClosesAt(name, rest);
    assert t[2..2 + |name|] == name;
    assert t[2 + |name| + 2..] == rest;
  }

  lemma DecodeOne(p: Piece, rest: string)
    requires Readable([p])
    ensures Decode(EncodeOne(p) + rest) == Before(p, Decode(rest))
  {
    var t := EncodeOne(p) + rest;
    assert p in [p];
    if p == Lit('%') || p == Hole(None) {
      assert t[2..] == rest;
    } else if p.Lit? {
      assert t[1..] == rest;
    } else {
      DecodeName(p.name.value, rest);
    }
  }

  /** The driver reads back exactly the pieces that were written for it. */
  lemma {:induction false} DecodeEncode(pieces: seq<Piece>)
    requires Readable(pieces)
    ensures Decode(Encode(pieces)) == Some(pieces)
  {
    if pieces != [] {
      assert [pieces[0]] + pieces[1..] == pieces;
      DecodeOne(pieces[0], Encode(pieces[1..]));
      DecodeEncode(pieces[1..]);
    }
  }

  // ---------------------------------------------------------------------------------------------
  // The translation keeps the meaning
  // ---------------------------------------------------------------------------------------------

  /** A name changes neither the quotation nor hides a placeholder. */
  lemma {:induction false} NamesAreInert(a: Alphabet, sql: string, named: bool, i: nat, j: nat)
    requires Proper(a) && named && i <= j <= |sql| && QuoteAt(sql, i).None?
    requires forall k :: i <= k < j ==> InName(a, sql[k])
    ensures QuoteAt(sql, j).None?
    ensures Placeholders(a, sql, named, i) == Placeholders(a, sql, named, j)
    decreases j - i
  {
    if i < j {
      assert InName(a, sql[i]);
      assert !IsHole(a, sql, named, i);
      NamesAreInert(a, sql, named, i + 1, j);
    }
  }

  lemma HoleSpan(a: Alphabet, sql: string, i: nat)
    requires Proper(a) && i < |sql| && IsHole(a, sql, true, i)
    ensures var j := NameEnd(a, sql, i + 1);
            i + 1 < j && ')' !in sql[i + 1..j] && QuoteAt(sql, j).None?
            && Placeholders(a, sql, true, i + 1) == Placeholders(a, sql, true, j)
  {
    var j := NameEnd(a, sql, i + 1);
    assert InName(a, sql[i + 1]);
    assert NameEnd(a, sql, i + 1) == NameEnd(a, sql, i + 2);
    var name := sql[i + 1..j];
    forall k | 0 <= k < |name| ensures name[k] != ')' {
      assert InName(a, sql[i + 1 + k]);
    }
    NamesAreInert(a, sql, true, i + 1, j);
  }

  /** A piece and what follows it. */
  lemma FirstPiece(p: Piece, rest: seq<Piece>)
    ensures Source([p] + rest) == SourceOne(p) + Source(rest)
    ensures Holes([p] + rest) == if p.Hole? then [p] + Holes(rest) else Holes(rest)
    ensures Encode([p] + rest) == EncodeOne(p) + Encode(rest)
    ensures Readable(rest) && Readable([p]) ==> Readable([p] + rest)
  {
  }

  /** The piece spells its stretch of the statement, and is the only placeholder in it. */
  lemma OnePiece(a: Alphabet, sql: string, named: bool, i: nat)
    requires Proper(a) && i < |sql|
    ensures var p, j := PieceAt(a, sql, named, i), NextAt(a, sql, named, i);
            && sql[i..] == SourceOne(p) + sql[j..]
            && Placeholders(a, sql, named, i)
               == (if p.Hole? then [p] + Placeholders(a, sql, named, j) else Placeholders(a, sql, named, j))
            && Readable([p])
  {
    if named && IsHole(a, sql, named, i) {
      HoleSpan(a, sql, i);
    }
  }

  /** Every piece is in its place: the pieces spell the statement, and their holes are exactly its
      placeholders, in order. */
  lemma {:induction false} PiecesAreFaithful(a: Alphabet, sql: string, named: bool, i: nat)
    requires Proper(a) && i <= |sql|
    ensures Source(Pieces(a, sql, named, i)) == sql[i..]
    ensures Holes(Pieces(a, sql, named, i)) == Placeholders(a, sql, named, i)
    ensures Readable(Pieces(a, sql, named, i))
    decreases |sql| - i
  {
    if i < |sql| {
      var j := NextAt(a, sql, named, i);
      OnePiece(a, sql, named, i);
      PiecesAreFaithful(a, sql, named, j);
      FirstPiece(PieceAt(a, sql, named, i), Pieces(a, sql, named, j));
    }
  }

  /** Read by the driver, the translation is the original statement with exactly the unquoted '?'
      (or ':name', never '::') turned into holes, in order. For every statement and both modes. */
  lemma TranslationKeepsMeaning(a: Alphabet, sql: string, named: bool)
    requires Proper(a)
    ensures var read := Decode(Encode(Pieces(a, sql, named, 0)));
            && read.Some?
            && Source(read.value) == sql
            && Holes(read.value) == Placeholders(a, sql, named, 0)
  {
    PiecesAreFaithful(a, sql, named, 0);
    DecodeEncode(Pieces(a, sql, named, 0));
    assert sql[0..] == sql;
  }

  /** The output for one piece carries the translation on to the next. */
  lemma Emit(a: Alphabet, sql: string, named: bool, i: nat, out: string, whole: string)
    requires i < |sql| && out + Encode(Pieces(a, sql, named, i)) == whole
    ensures (out + EncodeOne(PieceAt(a, sql, named, i))) + Encode(Pieces(a, sql, named, NextAt(a, sql, named, i))) == whole
  {
  }

  method SkipName(a: Alphabet, sql: string, i: nat) returns (j: nat)
    requires i <= |sql|
    ensures j == NameEnd(a, sql, i)
  {
    j := i;
    while j < |sql| && InName(a, sql[j])
      invariant i <= j <= |sql|
      invariant NameEnd(a, sql, i) == NameEnd(a, sql, j)
    {
      j := j + 1;
    }
  }

  method Translate(a: Alphabet, sql: string, named: bool) returns (out: string)
    requires Proper(a)
    ensures out == Encode(Pieces(a, sql, named, 0))
  {
    out := "";
    var quote: Option<char> := None;
    var i, n := 0, |sql|;
    ghost var whole := Encode(Pieces(a, sql, named, 0));
    while i < n
      invariant 0 <= i <= n
      invariant quote == QuoteAt(sql, i)
      invariant out + Encode(Pieces(a, sql, named, i)) == whole
    {
      var ch := sql[i];
      Emit(a, sql, named, i, out, whole);
      if named && IsHole(a, sql, named, i) {
        HoleSpan(a, sql, i);
      }
      if quote.Some? {
        out := out + (if ch == '%' then "%%" else [ch]);
        if ch == quote.value {
          quote := None;
        }
      } else if ch == '\'' || ch == '"' {
        quote := Some(ch);
        out := out + [ch];
      } else if ch == '?' && !named {
        out := out + "%s";
      } else if ch == ':' && named && i + 1 < n && StartsName(a, sql[i + 1]) && !(i > 0 && sql[i - 1] == ':') {
        var j := SkipName(a, sql, i + 1);
        out := out + ("%(" + sql[i + 1..j] + ")s");
        i := j;
        continue;
      } else if ch == '%' {
        out := out + "%%";
      } else {
        out := out + [ch];
      }
      i := i + 1;
    }
    assert out + "" == out;
  }
}
