/**
 * The allergen text pipeline shared by both menu-item modals
 * (src/components/menu/add-menu-item-modal.tsx, edit-menu-item-modal.tsx):
 * split on commas, trim each piece, drop empty pieces, capitalise.
 */
module Allergens {
  import Text

  /** `item.charAt(0).toUpperCase() + item.slice(1).toLowerCase()`. */
  function Capitalise(s: string): (r: string)
    ensures |r| == |s|
    ensures s != [] ==> r[0] == Text.UpperChar(s[0])
    ensures forall i :: 0 < i < |s| ==> r[i] == Text.LowerChar(s[i])
  {
    if s == [] then [] else Text.Upper(s[..1]) + Text.Lower(s[1..])
  }

  /** What the pipeline produces for one allergen: non-empty, comma-free, trimmed and capitalised. */
  predicate IsNormalEntry(s: string) {
    s != [] && ',' !in s && Text.IsTrimmed(s) && Capitalise(s) == s
  }

  /**
   * The pipeline over the comma pieces, one piece at a time: a piece that is
   * blank once trimmed is dropped, any other is kept trimmed and capitalised,
   * in order.
   */
  function NormalisePieces(pieces: seq<string>): (r: seq<string>)
    ensures |r| <= |pieces|
  {
    if pieces == [] then []
    else
      var t := Text.Trim(pieces[0]);
      (if t == [] then [] else [Capitalise(t)]) + NormalisePieces(pieces[1..])
  }

  /** The pipeline on the text of the allergens input. */
  function Normalise(text: string): (r: seq<string>)
    ensures |r| <= |Text.Split(text, ',')|
  {
    NormalisePieces(Text.Split(text, ','))
  }

  lemma {:induction false} NormalisePiecesEntries(pieces: seq<string>)
    requires forall i :: 0 <= i < |pieces| ==> ',' !in pieces[i]
    ensures forall i :: 0 <= i < |NormalisePieces(pieces)| ==> IsNormalEntry(NormalisePieces(pieces)[i])
  {
    if pieces != [] {
      NormalisePiecesEntries(pieces[1..]);
      var t := Text.Trim(pieces[0]);
      if t != [] {
        TrimKeepsOut(pieces[0], ',');
        CapitaliseNormal(t);
      }
    }
  }

  /** Every entry the pipeline produces is non-empty, comma-free, trimmed and capitalised. */
  lemma NormaliseEntries(text: string)
    ensures forall i :: 0 <= i < |Normalise(text)| ==> IsNormalEntry(Normalise(text)[i])
  {
    NormalisePiecesEntries(Text.Split(text, ','));
  }

  lemma {:induction false} NormalisePiecesKeeps(pieces: seq<string>)
    ensures forall i :: 0 <= i < |pieces| && Text.Trim(pieces[i]) != [] ==>
      Capitalise(Text.Trim(pieces[i])) in NormalisePieces(pieces)
  {
    if pieces != [] {
      NormalisePiecesKeeps(pieces[1..]);
      forall i | 1 <= i < |pieces| && Text.Trim(pieces[i]) != []
        ensures Capitalise(Text.Trim(pieces[i])) in NormalisePieces(pieces)
      {
        assert pieces[1..][i - 1] == pieces[i];
      }
    }
  }

  /** Every comma piece that is not blank after trimming reaches the list, capitalised. */
  lemma NormaliseKeepsPieces(text: string)
    ensures forall i :: 0 <= i < |Text.Split(text, ',')| && Text.Trim(Text.Split(text, ',')[i]) != [] ==>
      Capitalise(Text.Trim(Text.Split(text, ',')[i])) in Normalise(text)
  {
    NormalisePiecesKeeps(Text.Split(text, ','));
  }

  lemma {:induction false} TrimStartKeepsOut(s: string, c: char)
    requires c !in s
    ensures c !in Text.TrimStart(s)
  {
    var r := Text.TrimStart(s);
    forall i | 0 <= i < |r| ensures r[i] != c {
      var j := |s| - |r| + i;
      assert 0 <= j < |s| && r[i] == s[j];
      assert s[j] in s;
    }
  }

  lemma {:induction false} TrimKeepsOut(s: string, c: char)
    requires c !in s
    ensures c !in Text.Trim(s)
  {
    TrimStartKeepsOut(s, c);
    var t := Text.TrimStart(s);
    var r := Text.TrimEnd(t);
    forall i | 0 <= i < |r| ensures r[i] != c {
      assert r[i] == t[i];
    }
  }

  /** Case mapping never turns a non-letter into a letter or back, so whitespace and commas are kept as they are. */
  lemma CaseMappingKeepsNonLetters(c: char)
    ensures Text.IsWhitespace(Text.UpperChar(c)) == Text.IsWhitespace(c)
    ensures Text.IsWhitespace(Text.LowerChar(c)) == Text.IsWhitespace(c)
    ensures (Text.UpperChar(c) == ',') == (c == ',')
    ensures (Text.LowerChar(c) == ',') == (c == ',')
    ensures Text.UpperChar(Text.UpperChar(c)) == Text.UpperChar(c)
    ensures Text.LowerChar(Text.LowerChar(c)) == Text.LowerChar(c)
  {
  }

  /** A non-empty, comma-free, trimmed string capitalises to a normal entry. */
  lemma CapitaliseNormal(s: string)
    requires s != [] && ',' !in s && Text.IsTrimmed(s)
    ensures IsNormalEntry(Capitalise(s))
  {
    var r := Capitalise(s);
    CaseMappingKeepsNonLetters(s[0]);
    CaseMappingKeepsNonLetters(s[|s| - 1]);
    forall i | 0 <= i < |r| ensures r[i] != ',' {
      CaseMappingKeepsNonLetters(s[i]);
    }
    var rr := Capitalise(r);
    forall i | 0 <= i < |r| ensures rr[i] == r[i] {
      CaseMappingKeepsNonLetters(s[i]);
    }
  }

  /** Each string with a space in front, as the pieces after the first appear in a `", "`-join. */
  function Spaced(xs: seq<string>): (r: seq<string>)
    ensures |r| == |xs|
  {
    if xs == [] then [] else [" " + xs[0]] + Spaced(xs[1..])
  }

  /**
   * Splitting `pre` followed by a `", "`-join of comma-free strings on `,`
   * gives `pre` glued to the first string, then each later string after a space.
   */
  lemma {:induction false} SplitJoin(pre: string, xs: seq<string>)
    requires xs != []
    requires ',' !in pre
    requires forall i :: 0 <= i < |xs| ==> ',' !in xs[i]
    ensures Text.Split(pre + Text.Join(xs, ", "), ',') == [pre + xs[0]] + Spaced(xs[1..])
    decreases |xs|
  {
    assert ',' !in pre + xs[0];
    if |xs| == 1 {
      Text.SplitNoSeparator(pre + xs[0], ',');
      assert Spaced(xs[1..]) == [];
    } else {
      var rest := Text.Join(xs[1..], ", ");
      assert Text.Join(xs, ", ") == xs[0] + ", " + rest;
      assert pre + Text.Join(xs, ", ") == (pre + xs[0]) + [','] + (" " + rest);
      Text.SplitAtSeparator(pre + xs[0], ',', " " + rest);
      SplitJoin(" ", xs[1..]);
      var tail := Spaced(xs[2..]);
      assert xs[1..][1..] == xs[2..];
      assert Spaced(xs[1..]) == [" " + xs[1]] + tail;
    }
  }

  /** A normal entry, alone or after one space, passes the pipeline unchanged. */
  lemma NormalPieceKept(x: string, rest: seq<string>)
    requires IsNormalEntry(x)
    ensures NormalisePieces([x] + rest) == [x] + NormalisePieces(rest)
    ensures NormalisePieces([" " + x] + rest) == [x] + NormalisePieces(rest)
  {
    assert ([x] + rest)[1..] == rest;
    assert ([" " + x] + rest)[1..] == rest;
    Text.TrimLeadingSpace(x);
  }

  /** Each entry of a normalised list, after one space, normalises back to itself. */
  lemma {:induction false} NormaliseSpaced(xs: seq<string>)
    requires forall i :: 0 <= i < |xs| ==> IsNormalEntry(xs[i])
    ensures NormalisePieces(Spaced(xs)) == xs
  {
    if xs != [] {
      var tail := xs[1..];
      assert forall i :: 0 <= i < |tail| ==> IsNormalEntry(tail[i]) by {
        forall i | 0 <= i < |tail| ensures IsNormalEntry(tail[i]) {
          assert tail[i] == xs[i + 1];
        }
      }
      NormaliseSpaced(tail);
      var spaced := Spaced(tail);
      NormalPieceKept(xs[0], spaced);
      assert xs == [xs[0]] + tail;
    }
  }

  /** Normalising the `", "`-join of a normalised list gives that list back. */
  lemma {:induction false} JoinRoundTrip(xs: seq<string>)
    requires forall i :: 0 <= i < |xs| ==> IsNormalEntry(xs[i])
    ensures Normalise(Text.Join(xs, ", ")) == xs
  {
    if xs == [] {
      assert Text.Split("", ',') == [""];
      assert NormalisePieces([""]) == [] + NormalisePieces([]);
    } else {
      SplitJoin("", xs);
      assert "" + Text.Join(xs, ", ") == Text.Join(xs, ", ");
      assert "" + xs[0] == xs[0];
      NormaliseSpaced(xs[1..]);
      NormalPieceKept(xs[0], Spaced(xs[1..]));
      assert xs == [xs[0]] + xs[1..];
    }
  }

  /** Running the pipeline on its own output, re-joined, changes nothing. */
  lemma Idempotent(text: string)
    ensures Normalise(Text.Join(Normalise(text), ", ")) == Normalise(text)
  {
    NormaliseEntries(text);
    JoinRoundTrip(Normalise(text));
  }
}

/**
 * The allergen pipeline as the modals write it, a chain of array calls
 * (`split(',')`, `map(trim)`, `filter`, `map(capitalise)`), and its agreement
 * with the piece-by-piece definition in `Allergens`.
 */
module AllergenPipeline {
  import Text
  import Seqs
  import Allergens

  /** `.filter(item => item.length > 0)` on trimmed pieces. */
  predicate NonBlank(t: string) {
    t != []
  }

  /** The array pipeline `pieces.map(trim).filter(nonBlank).map(capitalise)`. */
  function Pipeline(pieces: seq<string>): seq<string> {
    Seqs.Map(Seqs.Filter(Seqs.Map(pieces, Text.Trim), NonBlank), Allergens.Capitalise)
  }

  /** The array pipeline on one more leading piece. */
  lemma PipelineCons(p: string, rest: seq<string>)
    ensures Pipeline([p] + rest)
         == (if Text.Trim(p) == [] then [] else [Allergens.Capitalise(Text.Trim(p))]) + Pipeline(rest)
  {
    var t := Text.Trim(p);
    var trimmed := Seqs.Map(rest, Text.Trim);
    var kept := Seqs.Filter(trimmed, NonBlank);
    Seqs.MapCons(p, rest, Text.Trim);
    Seqs.FilterCons(t, trimmed, NonBlank);
    if t == [] {
      assert Seqs.Filter([t] + trimmed, NonBlank) == kept;
    } else {
      assert Seqs.Filter([t] + trimmed, NonBlank) == [t] + kept;
      Seqs.MapCons(t, kept, Allergens.Capitalise);
    }
  }

  /**
   * The piece-by-piece pipeline is the array pipeline: exactly the trimmed,
   * non-blank pieces, capitalised, in source order.
   */
  lemma {:induction false} NormalisePiecesIsPipeline(pieces: seq<string>)
    ensures Allergens.NormalisePieces(pieces) == Seqs.Map(Seqs.Filter(Seqs.Map(pieces, Text.Trim), NonBlank), Allergens.Capitalise)
  {
    if pieces != [] {
      NormalisePiecesIsPipeline(pieces[1..]);
      assert pieces == [pieces[0]] + pieces[1..];
      PipelineCons(pieces[0], pieces[1..]);
    }
  }

  /** The allergens text becomes its trimmed, non-blank comma pieces, capitalised, in source order. */
  lemma NormaliseIsPipeline(text: string)
    ensures Allergens.Normalise(text) == Seqs.Map(Seqs.Filter(Seqs.Map(Text.Split(text, ','), Text.Trim), NonBlank), Allergens.Capitalise)
  {
    NormalisePiecesIsPipeline(Text.Split(text, ','));
  }
}
