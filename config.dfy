/** `Settings.parsed_origins`: the CORS origins allowed by the deployment. */
module Config {
  import opened Strings

  /** The origins used when `ALLOWED_ORIGINS` is empty. */
  const DefaultOrigins: seq<string> := [
    "https://stefan-api-test-6.lovable.app",
    "http://localhost:5173",
    "http://localhost:3000",
    "http://127.0.0.1:5173",
    "http://127.0.0.1:3000"
  ]

  /** A usable origin: non-empty, no whitespace at either end. */
  predicate Trimmed(o: string)
  {
    o != "" && !IsSpace(o[0]) && !IsSpace(o[|o| - 1])
  }

  /** `[o.strip() for o in pieces if o.strip()]`. */
  function StrippedPieces(pieces: seq<string>): (r: seq<string>)
    ensures |r| <= |pieces|
    decreases |pieces|
  {
    if pieces == [] then []
    else
      var o := Strip(pieces[0]);
      (if o != "" then [o] else []) + StrippedPieces(pieces[1..])
  }

  /** Every kept origin is non-empty and has no whitespace at either end. */
  lemma {:induction false} StrippedPiecesTrimmed(pieces: seq<string>)
    ensures forall i :: 0 <= i < |StrippedPieces(pieces)| ==> Trimmed(StrippedPieces(pieces)[i])
    decreases |pieces|
  {
    if pieces != [] {
      StrippedPiecesTrimmed(pieces[1..]);
      var o := Strip(pieces[0]);
      StripSpec(pieces[0]);
      var h := if o != "" then [o] else [];
      var r := StrippedPieces(pieces);
      assert r == h + StrippedPieces(pieces[1..]);
      forall i | 0 <= i < |r| ensures Trimmed(r[i]) {
        if i >= |h| {
          assert r[i] == StrippedPieces(pieces[1..])[i - |h|];
        }
      }
    }
  }

  /** `parsed_origins()`: the default list when the setting is empty,
      otherwise its comma-separated pieces, stripped, with the blank ones
      dropped, at most one per comma plus one. */
  function ParsedOrigins(allowedOrigins: string): (r: seq<string>)
    ensures allowedOrigins == "" ==> r == DefaultOrigins
    ensures allowedOrigins != "" ==> |r| <= Count(allowedOrigins, ',') + 1
    ensures forall i :: 0 <= i < |r| ==> Trimmed(r[i])
  {
    if allowedOrigins == "" then DefaultOrigins
    else
      SplitCount(allowedOrigins, ',');
      StrippedPiecesTrimmed(Split(allowedOrigins, ','));
      StrippedPieces(Split(allowedOrigins, ','))
  }

  /** The pieces are handled one at a time and in order: the origins of
      `a + b` are those of `a` followed by those of `b`, and a single piece
      gives its stripped text unless that is blank. */
  lemma {:induction false} StrippedPiecesConcat(a: seq<string>, b: seq<string>)
    ensures StrippedPieces(a + b) == StrippedPieces(a) + StrippedPieces(b)
    decreases |a|
  {
    if a == [] {
      assert a + b == b;
    } else {
      var ab := a + b;
      var o := Strip(a[0]);
      var h := if o != "" then [o] else [];
      var rest, tail := StrippedPieces(a[1..]), StrippedPieces(b);
      assert ab[0] == a[0] && ab[1..] == a[1..] + b;
      calc {
        StrippedPieces(ab);
        h + StrippedPieces(a[1..] + b);
        { StrippedPiecesConcat(a[1..], b); }
        h + (rest + tail);
        { assert h + (rest + tail) == (h + rest) + tail; }
        (h + rest) + tail;
      }
    }
  }

  lemma StrippedPieceSingle(p: string)
    ensures StrippedPieces([p]) == if Strip(p) != "" then [Strip(p)] else []
  {
    assert [p][1..] == [];
  }

  /** Pieces that are all blank give nothing. */
  lemma {:induction false} AllBlankPieces(pieces: seq<string>)
    requires forall j :: 0 <= j < |pieces| ==> Strip(pieces[j]) == ""
    ensures StrippedPieces(pieces) == []
    decreases |pieces|
  {
    if pieces != [] {
      assert forall j :: 1 <= j < |pieces| ==> pieces[1..][j - 1] == pieces[j];
      AllBlankPieces(pieces[1..]);
    }
  }

  /** Every character of a piece comes from the split string. */
  lemma {:induction false} SplitPieceChars(s: string, sep: char, i: nat, k: nat)
    requires i < |Split(s, sep)| && k < |Split(s, sep)[i]|
    ensures Split(s, sep)[i][k] in s
    decreases |s|
  {
    if s != [] {
      var rest := Split(s[1..], sep);
      if s[0] == sep {
        assert Split(s, sep)[i] == rest[i - 1];
        SplitPieceChars(s[1..], sep, i - 1, k);
      } else if i == 0 && k == 0 {
      } else if i == 0 {
        assert Split(s, sep)[0][k] == rest[0][k - 1];
        SplitPieceChars(s[1..], sep, 0, k - 1);
      } else {
        assert Split(s, sep)[i] == rest[i];
        SplitPieceChars(s[1..], sep, i, k);
      }
    }
  }

  /** A non-empty setting made only of commas and whitespace gives no origins
      at all, not the defaults. */
  lemma OnlyCommasAndSpaces(allowedOrigins: string)
    requires allowedOrigins != ""
    requires forall k :: 0 <= k < |allowedOrigins| ==> allowedOrigins[k] == ',' || IsSpace(allowedOrigins[k])
    ensures ParsedOrigins(allowedOrigins) == []
  {
    var pieces := Split(allowedOrigins, ',');
    SplitPiecesFree(allowedOrigins, ',');
    forall j | 0 <= j < |pieces| ensures Strip(pieces[j]) == "" {
      forall k | 0 <= k < |pieces[j]| ensures IsSpace(pieces[j][k]) {
        SplitPieceChars(allowedOrigins, ',', j, k);
      }
      StripEmptyIff(pieces[j]);
    }
    AllBlankPieces(pieces);
  }

  /** When no piece is blank, every piece is kept, stripped, in order. */
  lemma {:induction false} NoBlankPieces(pieces: seq<string>)
    requires forall j :: 0 <= j < |pieces| ==> Strip(pieces[j]) != ""
    ensures |StrippedPieces(pieces)| == |pieces|
    ensures forall j :: 0 <= j < |pieces| ==> StrippedPieces(pieces)[j] == Strip(pieces[j])
    decreases |pieces|
  {
    if pieces != [] {
      NoBlankPieces(pieces[1..]);
      assert forall j :: 1 <= j < |pieces| ==> pieces[1..][j - 1] == pieces[j];
    }
  }
}
