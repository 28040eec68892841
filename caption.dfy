/**
 * Caption text: turning the captioning network's token indices into words
 * (`InstanceCaptioner.decode_sequence`) and cutting the words into lines of
 * five for display (the loop at the end of `cap_image`).
 */
module Caption {
  import opened Util

  /** Token index that ends a sentence. */
  const EndToken := 0

  /** Words per caption line (`cut`). */
  const Cut := 5

  /** A token is decoded when it is not the end marker and has a vocabulary entry. */
  predicate Decodable(vocab: map<int, string>, ix: int)
  {
    ix != EndToken && ix in vocab
  }

  /**
   * The number of leading tokens that decode: the position of the first
   * token that is 0 or missing from the vocabulary, or the whole length.
   */
  function StopAt(vocab: map<int, string>, s: seq<int>): (k: nat)
    ensures k <= |s|
    ensures forall i :: 0 <= i < k ==> Decodable(vocab, s[i])
    ensures k < |s| ==> !Decodable(vocab, s[k])
  {
    if |s| == 0 || !Decodable(vocab, s[0]) then 0 else 1 + StopAt(vocab, s[1..])
  }

  /**
   * `decode_sequence(ix_to_word, seq)`: the words of the leading decodable
   * tokens. An end token returns early; a missing key raises inside the
   * `try`, which is swallowed, so the words gathered so far are returned.
   */
  method DecodeSequence(vocab: map<int, string>, s: seq<int>) returns (out: seq<string>)
    ensures |out| == StopAt(vocab, s) <= |s|
    ensures forall i :: 0 <= i < |out| ==> s[i] in vocab && out[i] == vocab[s[i]]
  {
    out := [];
    var j := 0;
    while j < |s|
      invariant j <= |s| && |out| == j
      invariant forall i :: 0 <= i < j ==> Decodable(vocab, s[i]) && out[i] == vocab[s[i]]
    {
      if s[j] == EndToken {
        return;
      }
      if s[j] !in vocab {
        // the KeyError is caught and the partial result returned
        return;
      }
      out := out + [vocab[s[j]]];
      j := j + 1;
    }
  }

  /** `' '.join(ws)`. */
  function Join(ws: seq<string>): string
  {
    if |ws| == 0 then "" else if |ws| == 1 then ws[0] else ws[0] + " " + Join(ws[1..])
  }

  /** The concatenation of a sequence of sequences. */
  function Flatten<T>(cs: seq<seq<T>>): seq<T>
  {
    if |cs| == 0 then [] else cs[0] + Flatten(cs[1..])
  }

  /** `ws` cut into consecutive pieces of `Cut`, the last one possibly shorter. */
  function Chunks<T>(ws: seq<T>): seq<seq<T>>
    decreases |ws|
  {
    if |ws| == 0 then [] else var m := Min(Cut, |ws|); [ws[..m]] + Chunks(ws[m..])
  }

  /** Each piece of words joined into one line. */
  function JoinEach(cs: seq<seq<string>>): seq<string>
  {
    if |cs| == 0 then [] else [Join(cs[0])] + JoinEach(cs[1..])
  }

  /** The caption lines for `words`: groups of `Cut` words, each group joined by spaces. */
  function Wrapped(words: seq<string>): seq<string>
  {
    JoinEach(Chunks(words))
  }

  /**
   * The wrapping loop of `cap_image`: starting at 0, append the join of the
   * slice `words[i:i + cut]` (clipped at the end) and advance `i` by `cut`.
   */
  method WrapWords(words: seq<string>) returns (lines: seq<string>)
    ensures lines == Wrapped(words)
    ensures |lines| == (|words| + Cut - 1) / Cut
  {
    lines := [];
    var i := 0;
    while i < |words|
      invariant 0 <= i
      invariant lines + JoinEach(Chunks(words[Min(i, |words|)..])) == Wrapped(words)
    {
      var m := Min(i + Cut, |words|);
      assert words[i..][..Min(Cut, |words| - i)] == words[i..m];
      assert words[i..][Min(Cut, |words| - i)..] == words[m..];
      lines := lines + [Join(words[i..m])];
      i := i + Cut;
    }
    assert words[Min(i, |words|)..] == [];
    ChunksCount(words);
    JoinEachLength(Chunks(words));
  }

  lemma {:induction false} JoinEachLength(cs: seq<seq<string>>)
    ensures |JoinEach(cs)| == |cs|
  {
    if |cs| > 0 {
      JoinEachLength(cs[1..]);
    }
  }

  /** There are ceil(N / n) pieces. */
  lemma {:induction false} ChunksCount<T>(ws: seq<T>)
    ensures |Chunks(ws)| == (|ws| + Cut - 1) / Cut
    decreases |ws|
  {
    if |ws| > 0 {
      ChunksCount(ws[Min(Cut, |ws|)..]);
    }
  }

  /** Putting the pieces back together gives the words again. */
  lemma {:induction false} ChunksFlatten<T>(ws: seq<T>)
    ensures Flatten(Chunks(ws)) == ws
    decreases |ws|
  {
    if |ws| > 0 {
      var m := Min(Cut, |ws|);
      ChunksFlatten(ws[m..]);
      assert Chunks(ws)[1..] == Chunks(ws[m..]);
      assert ws[..m] + ws[m..] == ws;
    }
  }

  /** Every piece but the last holds exactly `Cut` words; the last holds 1 to `Cut`. */
  lemma {:induction false} ChunksShape<T>(ws: seq<T>)
    ensures forall k :: 0 <= k < |Chunks(ws)| - 1 ==> |Chunks(ws)[k]| == Cut
    ensures |Chunks(ws)| > 0 ==> 1 <= |Chunks(ws)[|Chunks(ws)| - 1]| <= Cut
    decreases |ws|
  {
    if |ws| > 0 {
      var m := Min(Cut, |ws|);
      ChunksShape(ws[m..]);
      assert Chunks(ws)[1..] == Chunks(ws[m..]);
      if |ws| > Cut {
        ChunksCount(ws[m..]);
      }
    }
  }

  /** Joining two non-empty word lists with a space between them is joining their concatenation. */
  lemma {:induction false} JoinConcat(a: seq<string>, b: seq<string>)
    requires |a| > 0 && |b| > 0
    ensures Join(a + b) == Join(a) + " " + Join(b)
    decreases |a|
  {
    if |a| > 1 {
      JoinConcat(a[1..], b);
      assert (a + b)[1..] == a[1..] + b;
    }
  }

  /**
   * Joining the caption lines with single spaces gives the sentence: the
   * wrapping only decides where the line breaks fall.
   */
  lemma {:induction false} WrappedRejoins(words: seq<string>)
    ensures Join(Wrapped(words)) == Join(words)
    decreases |words|
  {
    if |words| > 0 {
      var m := Min(Cut, |words|);
      var rest := words[m..];
      WrappedRejoins(rest);
      assert Chunks(words)[1..] == Chunks(rest);
      assert Wrapped(words) == [Join(words[..m])] + Wrapped(rest);
      if |rest| == 0 {
        assert words[..m] == words;
      } else {
        ChunksCount(rest);
        JoinEachLength(Chunks(rest));
        assert (|rest| + Cut - 1) / Cut > 0;
        assert ([Join(words[..m])] + Wrapped(rest))[1..] == Wrapped(rest);
        JoinConcat(words[..m], rest);
        assert words[..m] + rest == words;
      }
    }
  }
}
