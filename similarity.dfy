/**
 * The similarity engine of `src/lib/similarity/text.ts`: tokenising, per-document
 * term-frequency vectors over a shared vocabulary, cosine similarity, the
 * thresholded pair map and its connected components.
 *
 * Numbers are exact reals. `Math.sqrt` is the parameter `sqrt`: only the zero
 * cases of the score (an empty document, disjoint vocabularies) depend on
 * nothing but integer counts, and those are the ones proved here.
 */
module Similarity {
  import opened Wrappers
  import opened Types
  import opened Strings

  // ---------------------------------------------------------------- tokenize

  /** What `toLowerCase()` followed by `replace(/[^\w\s]/g, "")` leaves of one character. */
  function Kept(c: char): string {
    var l := Lower(c);
    if IsWordChar(l) || IsSpace(l) then [l] else []
  }

  /** `toLowerCase()` followed by `replace(/[^\w\s]/g, "")`. */
  function Clean(s: string): (r: string)
    ensures forall i :: 0 <= i < |r| ==> (IsWordChar(r[i]) || IsSpace(r[i])) && !IsUpper(r[i])
  {
    if s == [] then [] else Kept(s[0]) + Clean(s[1..])
  }

  /**
   * `Clean` works character by character: cleaning a concatenation cleans each
   * part, and a character is kept, lowered, exactly when its lower-case form
   * is a word or whitespace character.
   */
  lemma {:induction false} CleanAppend(a: string, b: string)
    ensures Clean(a + b) == Clean(a) + Clean(b)
    ensures |a| == 1 ==> Clean(a) == if IsWordChar(Lower(a[0])) || IsSpace(Lower(a[0])) then [Lower(a[0])] else []
  {
    if a == [] {
      assert a + b == b;
    } else {
      assert (a + b)[0] == a[0] && (a + b)[1..] == a[1..] + b;
      CleanAppend(a[1..], b);
      assert Kept(a[0]) + (Clean(a[1..]) + Clean(b)) == (Kept(a[0]) + Clean(a[1..])) + Clean(b);
      if |a| == 1 {
        assert a[1..] == [];
      }
    }
  }

  /** The number of non-whitespace characters at the start of `s`. */
  function RunLength(s: string): (n: nat)
    ensures n <= |s|
    ensures forall i :: 0 <= i < n ==> !IsSpace(s[i])
    ensures n == |s| || IsSpace(s[n])
  {
    if s == [] || IsSpace(s[0]) then 0 else 1 + RunLength(s[1..])
  }

  /** `split(/\s+/).filter((token) => token.length > 0)`: the maximal runs of non-whitespace. */
  function Words(s: string): (ws: seq<string>)
    ensures forall k :: 0 <= k < |ws| ==> ws[k] != []
    ensures forall k, i :: 0 <= k < |ws| && 0 <= i < |ws[k]| ==> !IsSpace(ws[k][i]) && ws[k][i] in s
    decreases |s|
  {
    if s == [] then []
    else if IsSpace(s[0]) then Words(s[1..])
    else
      var n := RunLength(s);
      [s[..n]] + Words(s[n..])
  }

  /** A piece `Words` can give: non-empty and free of whitespace. */
  predicate IsWord(w: string) {
    w != [] && forall i :: 0 <= i < |w| ==> !IsSpace(w[i])
  }

  /** Joins words with single spaces, as a reference for `Words`. */
  function Spaced(ws: seq<string>): string {
    if ws == [] then [] else if |ws| == 1 then ws[0] else ws[0] + " " + Spaced(ws[1..])
  }

  /**
   * `Words` cuts only at whitespace and keeps every maximal run whole: words
   * without whitespace, joined by spaces, split back into the same words.
   */
  lemma {:induction false} WordsOfSpaced(ws: seq<string>)
    requires forall k :: 0 <= k < |ws| ==> IsWord(ws[k])
    ensures Words(Spaced(ws)) == ws
    decreases |ws|
  {
    if |ws| == 1 {
      assert Spaced(ws) == ws[0] + [];
      WordsStep(ws[0], []);
    } else if |ws| > 1 {
      WordsSpacedStep(ws);
      WordsOfSpaced(ws[1..]);
      assert ws == [ws[0]] + ws[1..];
    }
  }

  /** The first of several spaced words is the first word. */
  lemma WordsSpacedStep(ws: seq<string>)
    requires |ws| > 1 && IsWord(ws[0])
    ensures Words(Spaced(ws)) == [ws[0]] + Words(Spaced(ws[1..]))
  {
    var rest := " " + Spaced(ws[1..]);
    assert Spaced(ws) == ws[0] + rest;
    WordsStep(ws[0], rest);
    WordsSkipSpace(Spaced(ws[1..]));
  }

  /** A word followed by whitespace, or by nothing, is the first word. */
  lemma WordsStep(w: string, rest: string)
    requires IsWord(w)
    requires rest == [] || IsSpace(rest[0])
    ensures Words(w + rest) == [w] + Words(rest)
  {
    RunLengthOf(w, rest);
  }

  /** A leading space is skipped. */
  lemma WordsSkipSpace(s: string)
    ensures Words(" " + s) == Words(s)
  {
    assert (" " + s)[1..] == s;
  }

  /** The run at the start of a word followed by whitespace, or by nothing, is the word. */
  lemma {:induction false} RunLengthOf(w: string, rest: string)
    requires forall i :: 0 <= i < |w| ==> !IsSpace(w[i])
    requires rest == [] || IsSpace(rest[0])
    ensures RunLength(w + rest) == |w| && (w + rest)[..|w|] == w && (w + rest)[|w|..] == rest
  {
    if w != [] {
      assert (w + rest)[1..] == w[1..] + rest;
      RunLengthOf(w[1..], rest);
    }
  }

  /** `tokenize`: every token is non-empty, lower-case, and made of `[a-z0-9_]` only. */
  function Tokenize(text: string): (tokens: seq<string>)
    ensures forall k :: 0 <= k < |tokens| ==> tokens[k] != []
    ensures forall k, i :: 0 <= k < |tokens| && 0 <= i < |tokens[k]| ==>
      IsWordChar(tokens[k][i]) && !IsUpper(tokens[k][i]) && !IsSpace(tokens[k][i])
  {
    var cleaned := Clean(text);
    var ws := Words(cleaned);
    assert forall k, i :: 0 <= k < |ws| && 0 <= i < |ws[k]| ==>
      IsWordChar(ws[k][i]) && !IsUpper(ws[k][i]) by {
      forall k, i | 0 <= k < |ws| && 0 <= i < |ws[k]|
        ensures IsWordChar(ws[k][i]) && !IsUpper(ws[k][i])
      {
        var j :| 0 <= j < |cleaned| && cleaned[j] == ws[k][i];
      }
    }
    ws
  }

  function Concat(parts: seq<string>): string {
    if parts == [] then [] else Concat(parts[..|parts| - 1]) + parts[|parts| - 1]
  }

  function RemoveSpaces(s: string): string {
    if s == [] then [] else RemoveSpaces(s[..|s| - 1]) + (if IsSpace(s[|s| - 1]) then [] else [s[|s| - 1]])
  }

  lemma {:induction false} RemoveSpacesAppend(a: string, b: string)
    ensures RemoveSpaces(a + b) == RemoveSpaces(a) + RemoveSpaces(b)
    decreases |b|
  {
    if b == [] {
      assert a + b == a;
    } else {
      assert (a + b)[..|a + b| - 1] == a + b[..|b| - 1];
      RemoveSpacesAppend(a, b[..|b| - 1]);
    }
  }

  lemma {:induction false} ConcatPrepend(w: string, ws: seq<string>)
    ensures Concat([w] + ws) == w + Concat(ws)
    decreases |ws|
  {
    if ws == [] {
      assert [w][..0] == [];
      assert Concat([w]) == [] + w == w;
      assert [w] + ws == [w];
    } else {
      var init, last := ws[..|ws| - 1], ws[|ws| - 1];
      var all := [w] + ws;
      assert all[..|all| - 1] == [w] + init && all[|all| - 1] == last;
      ConcatPrepend(w, init);
      assert Concat(all) == (w + Concat(init)) + last;
      assert (w + Concat(init)) + last == w + (Concat(init) + last);
    }
  }

  lemma {:induction false} RemoveSpacesNone(s: string)
    requires forall i :: 0 <= i < |s| ==> !IsSpace(s[i])
    ensures RemoveSpaces(s) == s
  {
    if s != [] {
      RemoveSpacesNone(s[..|s| - 1]);
    }
  }

  /**
   * Splitting on whitespace loses nothing but the whitespace: the words, put back
   * together, are the input with its whitespace removed.
   */
  lemma {:induction false} WordsCoverInput(s: string)
    ensures Concat(Words(s)) == RemoveSpaces(s)
    decreases |s|
  {
    if s == [] {
    } else if IsSpace(s[0]) {
      WordsCoverInput(s[1..]);
      assert s == [s[0]] + s[1..];
      RemoveSpacesAppend([s[0]], s[1..]);
      assert RemoveSpaces([s[0]]) == RemoveSpaces([]) + [];
    } else {
      var n := RunLength(s);
      assert s == s[..n] + s[n..];
      WordsStep(s[..n], s[n..]);
      WordsCoverInput(s[n..]);
      ConcatPrepend(s[..n], Words(s[n..]));
      RemoveSpacesAppend(s[..n], s[n..]);
      RemoveSpacesNone(s[..n]);
    }
  }

  // -------------------------------------------------------------- vocabulary

  function Flatten(docs: seq<seq<string>>): seq<string> {
    if docs == [] then [] else Flatten(docs[..|docs| - 1]) + docs[|docs| - 1]
  }

  /** Tokens in first-seen order, each once: `Array.from(new Set(tokens))`. */
  function Distinct(ts: seq<string>): seq<string> {
    if ts == [] then []
    else
      var v := Distinct(ts[..|ts| - 1]);
      if ts[|ts| - 1] in v then v else v + [ts[|ts| - 1]]
  }

  function FirstIndex(ts: seq<string>, t: string): (i: nat)
    requires t in ts
    ensures i < |ts| && ts[i] == t && t !in ts[..i]
  {
    if ts[0] == t then 0 else 1 + FirstIndex(ts[1..], t)
  }

  lemma FirstIndexPrefix(ts: seq<string>, n: nat, t: string)
    requires n <= |ts| && t in ts[..n]
    ensures FirstIndex(ts, t) == FirstIndex(ts[..n], t)
  {
  }

  /**
   * The vocabulary holds every token exactly once, and nothing else, in the order
   * of first appearance.
   */
  lemma {:induction false} DistinctIsVocabulary(ts: seq<string>)
    ensures forall t :: t in Distinct(ts) <==> t in ts
    ensures forall i, j :: 0 <= i < j < |Distinct(ts)| ==> Distinct(ts)[i] != Distinct(ts)[j]
    ensures forall i, j :: 0 <= i < j < |Distinct(ts)| ==>
      FirstIndex(ts, Distinct(ts)[i]) < FirstIndex(ts, Distinct(ts)[j])
  {
    if ts != [] {
      var init, last := ts[..|ts| - 1], ts[|ts| - 1];
      DistinctIsVocabulary(init);
      assert ts == init + [last];
      var v := Distinct(init);
      forall i | 0 <= i < |v|
        ensures FirstIndex(ts, v[i]) == FirstIndex(init, v[i])
      {
        FirstIndexPrefix(ts, |ts| - 1, v[i]);
      }
      if last !in v {
        assert FirstIndex(ts, last) == |ts| - 1;
      }
    }
  }

  /** The documents: one token list per text. */
  function Documents(texts: seq<string>): (docs: seq<seq<string>>)
    ensures |docs| == |texts|
  {
    seq(|texts|, i requires 0 <= i < |texts| => Tokenize(texts[i]))
  }

  function Vocabulary(texts: seq<string>): seq<string> {
    Distinct(Flatten(Documents(texts)))
  }

  // ------------------------------------------------------ term frequencies

  function Count(doc: seq<string>, w: string): (n: nat)
    ensures n == 0 <==> w !in doc
  {
    if doc == [] then 0
    else Count(doc[..|doc| - 1], w) + (if doc[|doc| - 1] == w then 1 else 0)
  }

  /** The raw count of `w`, divided by the document's length when it has tokens. */
  function Frequency(doc: seq<string>, w: string): real {
    var count := Count(doc, w) as real;
    if |doc| > 0 then count / |doc| as real else count
  }

  function TermVector(doc: seq<string>, vocabulary: seq<string>): (v: seq<real>)
    ensures |v| == |vocabulary|
  {
    seq(|vocabulary|, k requires 0 <= k < |vocabulary| => Frequency(doc, vocabulary[k]))
  }

  /** What `calculateTFIDF(texts).vectors` holds: one vector per text over the shared vocabulary. */
  function TermVectors(texts: seq<string>): (vs: seq<seq<real>>)
    ensures |vs| == |texts|
    ensures forall d :: 0 <= d < |vs| ==> |vs[d]| == |Vocabulary(texts)|
  {
    var vocabulary := Vocabulary(texts);
    seq(|texts|, d requires 0 <= d < |texts| => TermVector(Tokenize(texts[d]), vocabulary))
  }

  /** A word a document does not hold has frequency 0 in it. */
  lemma FrequencyOfAbsent(doc: seq<string>, w: string)
    requires w !in doc
    ensures Frequency(doc, w) == 0.0
  {
    assert Count(doc, w) == 0;
  }

  /** A text with no tokens gets the all-zero vector. */
  lemma EmptyDocumentZeroVector(texts: seq<string>, d: nat)
    requires d < |texts| && Tokenize(texts[d]) == []
    ensures forall k :: 0 <= k < |TermVectors(texts)[d]| ==> TermVectors(texts)[d][k] == 0.0
  {
  }

  /** `Array.prototype.indexOf`: the first index of `x`, or -1. */
  function IndexOf(xs: seq<string>, x: string): (i: int)
    ensures -1 <= i < |xs|
    ensures i == -1 <==> x !in xs
    ensures i >= 0 ==> xs[i] == x && x !in xs[..i]
  {
    if xs == [] then -1
    else if xs[0] == x then 0
    else var j := IndexOf(xs[1..], x); if j == -1 then -1 else j + 1
  }

  /** The vocabulary-building loop of `calculateTFIDF`. */
  method BuildVocabulary(documents: seq<seq<string>>) returns (vocabulary: seq<string>)
    ensures vocabulary == Distinct(Flatten(documents))
  {
    vocabulary := [];
    var d := 0;
    while d < |documents|
      invariant 0 <= d <= |documents|
      invariant vocabulary == Distinct(Flatten(documents[..d]))
    {
      var doc := documents[d];
      var t := 0;
      assert Flatten(documents[..d]) + doc[..0] == Flatten(documents[..d]);
      while t < |doc|
        invariant 0 <= t <= |doc|
        invariant vocabulary == Distinct(Flatten(documents[..d]) + doc[..t])
      {
        assert (Flatten(documents[..d]) + doc[..t + 1])[..|Flatten(documents[..d])| + t]
          == Flatten(documents[..d]) + doc[..t];
        if doc[t] !in vocabulary {
          vocabulary := vocabulary + [doc[t]];
        }
        t := t + 1;
      }
      assert documents[..d + 1][..d] == documents[..d];
      assert doc[..t] == doc;
      d := d + 1;
    }
    assert documents[..d] == documents;
  }

  /** The per-document body of `calculateTFIDF`: count each token, then divide by the document's length. */
  method CountVector(doc: seq<string>, vocabulary: seq<string>) returns (v: seq<real>)
    requires forall i, j :: 0 <= i < j < |vocabulary| ==> vocabulary[i] != vocabulary[j]
    ensures v == TermVector(doc, vocabulary)
  {
    var vector := new real[|vocabulary|](_ => 0.0);
    var t := 0;
    while t < |doc|
      invariant 0 <= t <= |doc|
      invariant forall k :: 0 <= k < vector.Length ==> vector[k] == Count(doc[..t], vocabulary[k]) as real
    {
      var index := IndexOf(vocabulary, doc[t]);
      CountStep(doc, t, vocabulary, index);
      if index != -1 {
        vector[index] := vector[index] + 1.0;
      }
      t := t + 1;
    }
    assert doc[..t] == doc;
    var docLength := |doc|;
    if docLength > 0 {
      var i := 0;
      while i < vector.Length
        invariant 0 <= i <= vector.Length
        invariant forall k :: 0 <= k < i ==> vector[k] == Count(doc, vocabulary[k]) as real / docLength as real
        invariant forall k :: i <= k < vector.Length ==> vector[k] == Count(doc, vocabulary[k]) as real
      {
        vector[i] := vector[i] / docLength as real;
        i := i + 1;
      }
    }
    v := vector[..];
    assert forall k :: 0 <= k < |v| ==> v[k] == Frequency(doc, vocabulary[k]);
  }

  /** Reading token `t` adds one to the count of its own vocabulary entry and nothing to any other's. */
  lemma CountStep(doc: seq<string>, t: nat, vocabulary: seq<string>, index: int)
    requires t < |doc| && index == IndexOf(vocabulary, doc[t])
    requires forall i, j :: 0 <= i < j < |vocabulary| ==> vocabulary[i] != vocabulary[j]
    ensures forall k :: 0 <= k < |vocabulary| ==>
      Count(doc[..t + 1], vocabulary[k]) == Count(doc[..t], vocabulary[k]) + (if k == index then 1 else 0)
  {
    assert doc[..t + 1][..t] == doc[..t];
    forall k | 0 <= k < |vocabulary|
      ensures Count(doc[..t + 1], vocabulary[k]) == Count(doc[..t], vocabulary[k]) + (if k == index then 1 else 0)
    {
      assert (vocabulary[k] == doc[t]) == (k == index);
    }
  }

  /** `calculateTFIDF`: the vocabulary, then one normalised count vector per text. */
  method CalculateTermFrequencies(texts: seq<string>) returns (vectors: seq<seq<real>>, vocabulary: seq<string>)
    ensures vocabulary == Vocabulary(texts)
    ensures vectors == TermVectors(texts)
  {
    var documents := Documents(texts);
    vocabulary := BuildVocabulary(documents);
    DistinctIsVocabulary(Flatten(documents));
    vectors := [];
    var d := 0;
    while d < |documents|
      invariant 0 <= d <= |documents|
      invariant |vectors| == d
      invariant forall e :: 0 <= e < d ==> vectors[e] == TermVector(documents[e], vocabulary)
    {
      var vector := CountVector(documents[d], vocabulary);
      vectors := vectors + [vector];
      d := d + 1;
    }
  }

  // ------------------------------------------------------------------ cosine

  function Dot(u: seq<real>, v: seq<real>): real
    requires |u| == |v|
  {
    if u == [] then 0.0 else Dot(u[..|u| - 1], v[..|v| - 1]) + u[|u| - 1] * v[|v| - 1]
  }

  /**
   * `cosineSimilarity`: an error for vectors of different lengths; 0 when the
   * product of the two roots of the squared norms is 0; otherwise the normalised
   * dot product.
   */
  function Cosine(u: seq<real>, v: seq<real>, sqrt: real -> real): (r: Result<real, string>)
    ensures r.Failure? <==> |u| != |v|
  {
    if |u| != |v| then Failure("Vectors must have the same length")
    else Success(Normalized(Dot(u, v), Dot(u, u), Dot(v, v), sqrt))
  }

  /** The dot product divided by the product of the roots of the two squared norms, or 0 when that product is 0. */
  function Normalized(dot: real, norm1: real, norm2: real, sqrt: real -> real): real
  {
    var denominator := sqrt(norm1) * sqrt(norm2);
    if denominator == 0.0 then 0.0 else dot / denominator
  }

  method CosineSimilarity(vec1: seq<real>, vec2: seq<real>, sqrt: real -> real) returns (r: Result<real, string>)
    ensures r == Cosine(vec1, vec2, sqrt)
  {
    if |vec1| != |vec2| {
      return Failure("Vectors must have the same length");
    }
    var dotProduct, norm1, norm2 := 0.0, 0.0, 0.0;
    var i := 0;
    while i < |vec1|
      invariant 0 <= i <= |vec1|
      invariant dotProduct == Dot(vec1[..i], vec2[..i])
      invariant norm1 == Dot(vec1[..i], vec1[..i])
      invariant norm2 == Dot(vec2[..i], vec2[..i])
    {
      assert vec1[..i + 1][..i] == vec1[..i] && vec2[..i + 1][..i] == vec2[..i];
      dotProduct := dotProduct + vec1[i] * vec2[i];
      norm1 := norm1 + vec1[i] * vec1[i];
      norm2 := norm2 + vec2[i] * vec2[i];
      i := i + 1;
    }
    assert vec1[..i] == vec1 && vec2[..i] == vec2;
    assert dotProduct == Dot(vec1, vec2) && norm1 == Dot(vec1, vec1) && norm2 == Dot(vec2, vec2);
    assert Cosine(vec1, vec2, sqrt) == Success(Normalized(dotProduct, norm1, norm2, sqrt));
    var denominator := sqrt(norm1) * sqrt(norm2);
    if denominator == 0.0 {
      return Success(0.0);
    }
    assert Normalized(dotProduct, norm1, norm2, sqrt) == dotProduct / denominator;
    return Success(dotProduct / denominator);
  }

  lemma {:induction false} DotSymmetric(u: seq<real>, v: seq<real>)
    requires |u| == |v|
    ensures Dot(u, v) == Dot(v, u)
  {
    if u != [] {
      DotSymmetric(u[..|u| - 1], v[..|v| - 1]);
    }
  }

  /** The score is a symmetric function of its two vectors. */
  lemma CosineSymmetric(u: seq<real>, v: seq<real>, sqrt: real -> real)
    requires |u| == |v|
    ensures Cosine(u, v, sqrt) == Cosine(v, u, sqrt)
  {
    DotSymmetric(u, v);
  }

  lemma {:induction false} DotOfDisjointSupports(u: seq<real>, v: seq<real>)
    requires |u| == |v|
    requires forall k :: 0 <= k < |u| ==> u[k] == 0.0 || v[k] == 0.0
    ensures Dot(u, v) == 0.0
  {
    if u != [] {
      DotOfDisjointSupports(u[..|u| - 1], v[..|v| - 1]);
    }
  }

  /** Cosine is 0 whenever either vector is all zeros (given that the root of 0 is 0). */
  lemma CosineOfZeroVector(u: seq<real>, v: seq<real>, sqrt: real -> real)
    requires |u| == |v| && sqrt(0.0) == 0.0
    requires (forall k :: 0 <= k < |u| ==> u[k] == 0.0) || (forall k :: 0 <= k < |v| ==> v[k] == 0.0)
    ensures Cosine(u, v, sqrt) == Success(0.0)
  {
    if forall k :: 0 <= k < |u| ==> u[k] == 0.0 {
      DotOfDisjointSupports(u, u);
    } else {
      DotOfDisjointSupports(v, v);
    }
  }

  /** Cosine is 0 whenever the two vectors have no non-zero component in common, whatever `sqrt` is. */
  lemma CosineOfDisjointSupports(u: seq<real>, v: seq<real>, sqrt: real -> real)
    requires |u| == |v|
    requires forall k :: 0 <= k < |u| ==> u[k] == 0.0 || v[k] == 0.0
    ensures Cosine(u, v, sqrt) == Success(0.0)
  {
    DotOfDisjointSupports(u, v);
  }

  /** Two texts that share no token score 0: no vocabulary word has a non-zero count in both. */
  lemma DisjointTokensScoreZero(texts: seq<string>, a: nat, b: nat, sqrt: real -> real)
    requires a < |texts| && b < |texts|
    requires forall t :: t in Tokenize(texts[a]) ==> t !in Tokenize(texts[b])
    ensures Cosine(TermVectors(texts)[a], TermVectors(texts)[b], sqrt) == Success(0.0)
  {
    var vs, vocabulary := TermVectors(texts), Vocabulary(texts);
    var docA, docB := Tokenize(texts[a]), Tokenize(texts[b]);
    assert vs[a] == TermVector(docA, vocabulary) && vs[b] == TermVector(docB, vocabulary);
    forall k | 0 <= k < |vocabulary|
      ensures vs[a][k] == 0.0 || vs[b][k] == 0.0
    {
      if vocabulary[k] in docA {
        FrequencyOfAbsent(docB, vocabulary[k]);
      } else {
        FrequencyOfAbsent(docA, vocabulary[k]);
      }
    }
    CosineOfDisjointSupports(vs[a], vs[b], sqrt);
  }
}
