/**
 * The origins the API accepts cross-origin requests from
 * (aspy_backend/app/main.py, lines 16-26): the built-in frontends first, then
 * the comma-separated entries of the ALLOWED_ORIGINS environment variable,
 * each listed once. The variable's value is a parameter (empty when unset).
 */
module Origins {
  import Text

  const DefaultOrigins: seq<string> := [
    "http://localhost:3000",
    "http://127.0.0.1:3000",
    "http://localhost:5173",
    "http://127.0.0.1:5173",
    "https://d03683316559.ngrok-free.app",
    "https://desicodes.vercel.app",
    "https://desicodes-frontend.onrender.com/"
  ]

  predicate Distinct(s: seq<string>)
  {
    forall i, j :: 0 <= i < j < |s| ==> s[i] != s[j]
  }

  /** The stripped pieces that are not empty, in order. */
  function StrippedPieces(pieces: seq<string>): (r: seq<string>)
    ensures forall k :: 0 <= k < |r| ==> r[k] != ""
  {
    if |pieces| == 0 then []
    else
      var head := Text.Strip(pieces[0]);
      if head != "" then [head] + StrippedPieces(pieces[1..]) else StrippedPieces(pieces[1..])
  }

  /** Exactly the non-empty stripped pieces are kept. */
  lemma {:induction false} StrippedPiecesMeaning(pieces: seq<string>)
    ensures forall o :: o in StrippedPieces(pieces) ==> exists p :: p in pieces && Text.Strip(p) == o
    ensures forall p :: p in pieces && Text.Strip(p) != "" ==> Text.Strip(p) in StrippedPieces(pieces)
  {
    if |pieces| > 0 {
      var rest := pieces[1..];
      StrippedPiecesMeaning(rest);
      var head := Text.Strip(pieces[0]);
      var r := StrippedPieces(pieces);
      assert r == (if head != "" then [head] else []) + StrippedPieces(rest);
      forall o | o in r
        ensures exists p :: p in pieces && Text.Strip(p) == o
      {
        if o in StrippedPieces(rest) {
          var p :| p in rest && Text.Strip(p) == o;
          assert p in pieces;
        } else {
          assert pieces[0] in pieces && head == o;
        }
      }
      forall p | p in pieces && Text.Strip(p) != ""
        ensures Text.Strip(p) in r
      {
        if p != pieces[0] {
          assert p in rest;
        }
      }
    }
  }

  /** Stripping keeps a slice, so it brings in no character. */
  lemma StripKeepsCharacters(p: string, c: char)
    requires c !in p
    ensures c !in Text.Strip(p)
  {
    var o := Text.Strip(p);
    var i := Text.StripStart(p);
    assert o == p[i..i + |o|];
  }

  /** `[o.strip() for o in env.split(",") if o.strip()]`. */
  function EnvOrigins(env: string): seq<string>
  {
    StrippedPieces(Text.Split(env, ','))
  }

  /** `list(dict.fromkeys(s))`: the first occurrence of each value, in the
      order of first occurrence. */
  function Dedup(s: seq<string>): (r: seq<string>)
    ensures Distinct(r)
    ensures forall x :: x in r <==> x in s
  {
    if |s| == 0 then []
    else
      var d := Dedup(s[..|s| - 1]);
      assert forall x :: x in s <==> x in s[..|s| - 1] || x == s[|s| - 1];
      if s[|s| - 1] in d then d else d + [s[|s| - 1]]
  }

  function AllowedOrigins(env: string): seq<string>
  {
    Dedup(DefaultOrigins + EnvOrigins(env))
  }

  /** Taking a prefix of the input takes a prefix of the output: no value
      ever moves once it has been placed, so each keeps the position of its
      first occurrence. */
  lemma {:induction false} DedupPrefix(s: seq<string>, n: nat)
    requires n <= |s|
    ensures |Dedup(s[..n])| <= |Dedup(s)| && Dedup(s[..n]) == Dedup(s)[..|Dedup(s[..n])|]
    decreases |s| - n
  {
    if n == |s| {
      assert s[..n] == s;
    } else {
      var init := s[..|s| - 1];
      DedupPrefix(init, n);
      assert init[..n] == s[..n];
    }
  }

  /** A list without repeats comes back unchanged. */
  lemma {:induction false} DedupDistinct(s: seq<string>)
    requires Distinct(s)
    ensures Dedup(s) == s
  {
    if |s| > 0 {
      var init := s[..|s| - 1];
      DedupDistinct(init);
      assert s[|s| - 1] !in init;
      assert init + [s[|s| - 1]] == s;
    }
  }

  lemma DefaultsDistinct()
    ensures Distinct(DefaultOrigins)
  {
    var d := DefaultOrigins;
    assert d[0][17] == '3' && d[2][17] == '5';
    assert d[1][17] == '3' && d[3][17] == '5';
    assert d[0][7] == 'l' && d[1][7] == '1';
    assert |d[0]| == 21 && |d[1]| == 21 && |d[2]| == 21 && |d[3]| == 21;
    assert |d[4]| == 35 && |d[5]| == 28 && |d[6]| == 40;
  }

  /** The built-in origins come first, in their order; every built-in and
      every configured origin is accepted; nothing is listed twice; and every
      accepted origin is a built-in or a trimmed, non-empty, comma-free
      entry of the variable. */
  lemma AllowedOriginsShape(env: string)
    ensures var a := AllowedOrigins(env);
      && |DefaultOrigins| <= |a| && a[..|DefaultOrigins|] == DefaultOrigins
      && Distinct(a)
      && (forall o :: o in EnvOrigins(env) ==> o in a)
      && (forall o :: o in a ==> o in DefaultOrigins || (o in EnvOrigins(env) && o != "" && ',' !in o))
  {
    var all := DefaultOrigins + EnvOrigins(env);
    DefaultsDistinct();
    DedupDistinct(DefaultOrigins);
    DedupPrefix(all, |DefaultOrigins|);
    assert all[..|DefaultOrigins|] == DefaultOrigins;
    var pieces := Text.Split(env, ',');
    StrippedPiecesMeaning(pieces);
    forall o | o in EnvOrigins(env)
      ensures o != "" && ',' !in o
    {
      var p :| p in pieces && Text.Strip(p) == o;
      StripKeepsCharacters(p, ',');
    }
  }

  /** With ALLOWED_ORIGINS unset or empty only the built-in origins are
      accepted. */
  lemma UnsetVariableGivesDefaults()
    ensures AllowedOrigins("") == DefaultOrigins
  {
    assert Text.Split("", ',') == [""];
    assert Text.Strip("") == "";
    assert EnvOrigins("") == [];
    DefaultsDistinct();
    DedupDistinct(DefaultOrigins);
    assert DefaultOrigins + [] == DefaultOrigins;
  }
}
