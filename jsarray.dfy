/**
 * Repair of JavaScript array literals into JSON (gmusicapi/utils/jsarray.py).
 * JavaScript lets an array literal leave holes (`[1,,2]`, `[,1]`); JSON needs
 * them spelled `null`.  The tokenizer is outside the model: the input is the
 * sequence of token texts it produces.
 */
module JsArray {
  import opened Py
  import opened Text

  /** A comma right after a comma or an opening bracket marks a hole. */
  predicate IsHole(prev: string, cur: string)
  {
    cur == "," && (prev == "," || prev == "[")
  }

  /**
   * The output tokens, as to_json accumulates them: before each token, a
   * "null" is emitted when the last emitted token and this one frame a hole.
   */
  function Repaired(ts: seq<string>): (out: seq<string>)
    ensures |ts| > 0 ==> |out| > 0 && out[|out| - 1] == ts[|ts| - 1]
  {
    if |ts| == 0 then []
    else
      var out := Repaired(ts[..|ts| - 1]);
      var t := ts[|ts| - 1];
      (if |out| > 0 && IsHole(out[|out| - 1], t) then out + ["null"] else out) + [t]
  }

  /** to_json: the repaired token texts, joined. */
  method ToJson(tokens: seq<string>) returns (s: string)
    ensures s == Concat(Repaired(tokens))
  {
    var out: seq<string> := [];
    var i := 0;
    while i < |tokens|
      invariant 0 <= i <= |tokens|
      invariant out == Repaired(tokens[..i])
    {
      var t := tokens[i];
      if |out| > 0 && (("," == t && t == out[|out| - 1]) || (out[|out| - 1] == "[" && t == ",")) {
        out := out + ["null"];
      }
      out := out + [t];
      assert tokens[..i + 1][..i] == tokens[..i];
      i := i + 1;
    }
    assert tokens[..i] == tokens;
    s := Concat(out);
  }

  /** loads: the JSON parser (a parameter here) applied to the repaired text. */
  method Loads(tokens: seq<string>, parse: string -> Option<Value>) returns (r: Option<Value>)
    ensures r == parse(Concat(Repaired(tokens)))
  {
    var text := ToJson(tokens);
    r := parse(text);
  }

  // ------------------------------------------------------------------
  // An independent description of the repair, on the INPUT tokens: each
  // token is kept, and an inserted piece precedes exactly the tokens that
  // close a hole with the input token before them.

  datatype Piece = Kept(text: string) | Inserted

  function Fill(ts: seq<string>): seq<Piece>
  {
    if |ts| == 0 then []
    else
      Fill(ts[..|ts| - 1])
      + (if |ts| > 1 && IsHole(ts[|ts| - 2], ts[|ts| - 1]) then [Inserted] else [])
      + [Kept(ts[|ts| - 1])]
  }

  /** The text of each piece: an inserted piece reads "null". */
  function Texts(ps: seq<Piece>): (r: seq<string>)
    ensures |r| == |ps|
  {
    if |ps| == 0 then []
    else Texts(ps[..|ps| - 1]) + [if ps[|ps| - 1].Inserted? then "null" else ps[|ps| - 1].text]
  }

  /** The kept tokens, in order. */
  function KeptTexts(ps: seq<Piece>): seq<string>
  {
    if |ps| == 0 then []
    else KeptTexts(ps[..|ps| - 1]) + (if ps[|ps| - 1].Inserted? then [] else [ps[|ps| - 1].text])
  }

  function InsertedCount(ps: seq<Piece>): nat
  {
    if |ps| == 0 then 0
    else InsertedCount(ps[..|ps| - 1]) + (if ps[|ps| - 1].Inserted? then 1 else 0)
  }

  /** The number of positions i > 0 with IsHole(ts[i-1], ts[i]). */
  function HoleCount(ts: seq<string>): nat
  {
    if |ts| <= 1 then 0
    else HoleCount(ts[..|ts| - 1]) + (if IsHole(ts[|ts| - 2], ts[|ts| - 1]) then 1 else 0)
  }

  lemma TextsAppend(ps: seq<Piece>, qs: seq<Piece>)
    ensures Texts(ps + qs) == Texts(ps) + Texts(qs)
    decreases |qs|
  {
    if |qs| > 0 {
      TextsAppend(ps, qs[..|qs| - 1]);
      assert (ps + qs)[..|ps + qs| - 1] == ps + qs[..|qs| - 1];
    } else {
      assert ps + qs == ps;
    }
  }

  lemma KeptAppend(ps: seq<Piece>, qs: seq<Piece>)
    ensures KeptTexts(ps + qs) == KeptTexts(ps) + KeptTexts(qs)
    ensures InsertedCount(ps + qs) == InsertedCount(ps) + InsertedCount(qs)
    decreases |qs|
  {
    if |qs| > 0 {
      KeptAppend(ps, qs[..|qs| - 1]);
      assert (ps + qs)[..|ps + qs| - 1] == ps + qs[..|qs| - 1];
    } else {
      assert ps + qs == ps;
    }
  }

  /** The repair decided on the last EMITTED token agrees with the one decided on the last INPUT token. */
  lemma {:induction false} RepairedIsFill(ts: seq<string>)
    ensures Repaired(ts) == Texts(Fill(ts))
  {
    if |ts| > 0 {
      var init := ts[..|ts| - 1];
      RepairedIsFill(init);
      var t := ts[|ts| - 1];
      var mid: seq<Piece> := if |ts| > 1 && IsHole(ts[|ts| - 2], t) then [Inserted] else [];
      TextsAppend(Fill(init), mid);
      TextsAppend(Fill(init) + mid, [Kept(t)]);
      if |ts| > 1 {
        assert init[|init| - 1] == ts[|ts| - 2];
      }
    }
  }

  /** The hole decided at the last input token, as Fill adds it. */
  function LastHole(ts: seq<string>): nat
  {
    if |ts| > 1 && IsHole(ts[|ts| - 2], ts[|ts| - 1]) then 1 else 0
  }

  /** What one more input token adds to the kept tokens and to the inserted count. */
  lemma FillUnfold(ts: seq<string>)
    requires |ts| > 0
    ensures Fill(ts) == Fill(ts[..|ts| - 1]) + (if LastHole(ts) == 1 then [Inserted] else []) + [Kept(ts[|ts| - 1])]
  {
  }

  lemma KeptOne(p: Piece)
    ensures KeptTexts([p]) == (if p.Inserted? then [] else [p.text])
    ensures InsertedCount([p]) == (if p.Inserted? then 1 else 0)
  {
    assert [p][..0] == [];
  }

  /** Appending pieces to a prefix, seen through KeptTexts and InsertedCount. */
  lemma KeptAfter(prefix: seq<Piece>, mid: seq<Piece>, t: string)
    requires mid == [] || mid == [Inserted]
    ensures KeptTexts(prefix + mid + [Kept(t)]) == KeptTexts(prefix) + [t]
    ensures InsertedCount(prefix + mid + [Kept(t)]) == InsertedCount(prefix) + |mid|
  {
    KeptOne(Kept(t));
    if mid == [] {
      assert prefix + mid == prefix;
    } else {
      KeptOne(Inserted);
      KeptAppend(prefix, mid);
    }
    KeptAppend(prefix + mid, [Kept(t)]);
  }

  lemma FillLast(ts: seq<string>)
    requires |ts| > 0
    ensures KeptTexts(Fill(ts)) == KeptTexts(Fill(ts[..|ts| - 1])) + [ts[|ts| - 1]]
    ensures InsertedCount(Fill(ts)) == InsertedCount(Fill(ts[..|ts| - 1])) + LastHole(ts)
  {
    var mid: seq<Piece> := if LastHole(ts) == 1 then [Inserted] else [];
    FillUnfold(ts);
    KeptAfter(Fill(ts[..|ts| - 1]), mid, ts[|ts| - 1]);
  }

  /** Dropping the inserted nulls gives back exactly the input tokens. */
  lemma {:induction false} KeptIsInput(ts: seq<string>)
    ensures KeptTexts(Fill(ts)) == ts
  {
    if |ts| > 0 {
      KeptIsInput(ts[..|ts| - 1]);
      FillLast(ts);
      assert ts[..|ts| - 1] + [ts[|ts| - 1]] == ts;
    }
  }

  /** The hole count grows by the hole at the last token. */
  lemma HoleCountLast(ts: seq<string>)
    requires |ts| > 0
    ensures HoleCount(ts) == HoleCount(ts[..|ts| - 1]) + LastHole(ts)
  {
    if |ts| == 2 {
      assert HoleCount(ts[..1]) == 0;
    }
  }

  /** One null is inserted per hole, and no more. */
  lemma {:induction false} InsertedPerHole(ts: seq<string>)
    ensures InsertedCount(Fill(ts)) == HoleCount(ts)
  {
    if |ts| > 0 {
      InsertedPerHole(ts[..|ts| - 1]);
      FillLast(ts);
      HoleCountLast(ts);
    }
  }

  /** Nothing is inserted before the first token. */
  lemma {:induction false} FirstPieceKept(ts: seq<string>)
    requires |ts| > 0
    ensures |Fill(ts)| > 0 && Fill(ts)[0] == Kept(ts[0])
  {
    if |ts| > 1 {
      FirstPieceKept(ts[..|ts| - 1]);
    }
  }

  /** n commas in a row. */
  function Commas(n: nat): (r: seq<string>)
    ensures |r| == n
    ensures forall i :: 0 <= i < n ==> r[i] == ","
  {
    seq(n, _ => ",")
  }

  /** A run of k commas holds k - 1 holes: `[1,,,2]` becomes `[1,null,null,2]`. */
  lemma {:induction false} CommaRunHoles(k: nat)
    requires k >= 1
    ensures HoleCount(Commas(k)) == k - 1
  {
    if k > 1 {
      CommaRunHoles(k - 1);
      assert Commas(k)[..k - 1] == Commas(k - 1);
    }
  }

  /** A token between two commas, such as a line break, suppresses the hole. */
  lemma OnlyAdjacentCommasFrameHoles(ts: seq<string>, i: nat)
    requires 0 < i < |ts| && ts[i - 1] != "," && ts[i - 1] != "["
    ensures !IsHole(ts[i - 1], ts[i])
  {
  }

  lemma LeadingHole()
    ensures Concat(Repaired(["[", ",", "1", "]"])) == "[null,1]"
  {
    var ts := ["[", ",", "1", "]"];
    assert ts[..3] == ["[", ",", "1"];
    assert ts[..3][..2] == ["[", ","];
    assert ts[..3][..2][..1] == ["["];
    assert ["[", ","][..1] == ["["];
    assert Repaired(["["]) == ["["];
    assert Repaired(["[", ","]) == ["[", "null", ","];
    assert Repaired(["[", ",", "1"]) == ["[", "null", ",", "1"];
    assert Repaired(ts) == ["[", "null", ",", "1", "]"];
  }
}
