/**
 * Reading the score out of the language model's reply (app.py:268-272):
 * `int(evaluation.split("Score:")[1].strip().split("/")[0])`, where an
 * `IndexError` or a `ValueError` leaves no score.
 */
module ScoreExtraction {
  import opened Wrappers
  import opened Text

  const Marker := "Score:"

  /** What `get_llm_evaluation` returns when the call to the model fails (app.py:162). */
  const ModelFallback := "Error from model."

  /** `evaluation.split("Score:")[1].strip().split("/")[0]`; `None` where `[1]` raises `IndexError`. */
  function ScoreText(reply: string): Option<string> {
    match SplitSecond(reply, Marker)
    case None => None
    case Some(piece) => Some(SplitFirst(Strip(piece), "/"))
  }

  /** The score of app.py:269-270; `None` for either exception the `try` catches. */
  function ExtractScore(reply: string): Option<int> {
    match ScoreText(reply)
    case None => None
    case Some(t) => ParseInt(t)
  }

  /** A reply without `Score:` has no score. */
  lemma NoMarkerNoScore(reply: string)
    requires forall i :: !OccursAt(reply, Marker, i)
    ensures ExtractScore(reply) == None
  {
  }

  /** The fallback text of a failed model call has no score. */
  lemma FallbackHasNoScore()
    ensures ExtractScore(ModelFallback) == None
  {
    AbsentWithoutFirstChar(ModelFallback, Marker);
  }

  /** A reply in the format the conceptual prompt asks for. */
  const FormattedReply := "Evaluation: Clear and correct. | Score: 8/10"

  /** The formatted reply scores 8. */
  lemma FormattedReplyScore()
    ensures ExtractScore(FormattedReply) == Some(8)
  {
    var prefix := "Evaluation: Clear and correct. | ";
    AbsentWithoutFirstChar(prefix, Marker);
    assert FormattedReply == prefix + Marker + " " + NatToDigits(8) + "/" + "10";
    ScoreRoundTrip(prefix, 8, "10");
  }

  /** When `prefix` holds no `Score:`, the first one of the reply is the one after `prefix`. */
  lemma MarkerAfterPrefix(prefix: string, tail: string)
    requires forall i :: !OccursAt(prefix, Marker, i)
    ensures IndexOf(prefix + Marker + tail, Marker) == Some(|prefix|)
  {
    var reply := prefix + Marker + tail;
    var p := |prefix|;
    assert reply[p..p + |Marker|] == Marker;
    forall i | 0 <= i < p ensures !OccursAt(reply, Marker, i) {
      if i + |Marker| <= p {
        assert !OccursAt(prefix, Marker, i);
        assert reply[i..i + |Marker|] == prefix[i..i + |Marker|];
      } else if i + |Marker| <= |reply| {
        assert reply[p] == Marker[0] == 'S';
        assert reply[i..i + |Marker|][p - i] == reply[p];
        assert Marker[p - i] != 'S';
      }
    }
    IndexOfIsFirstOccurrence(reply, Marker, p);
  }

  /** No `Score:` starts inside `head` when `head` has no `S`. */
  lemma NoMarkerStartsIn(s: string, from: nat, head: string)
    requires from + |head| <= |s| && s[from..from + |head|] == head
    requires forall k :: 0 <= k < |head| ==> head[k] != 'S'
    ensures forall i :: from <= i < from + |head| ==> !OccursAt(s, Marker, i)
  {
    forall i | from <= i < from + |head| ensures !OccursAt(s, Marker, i) {
      assert s[i] == head[i - from];
      if i + |Marker| <= |s| {
        assert s[i..i + |Marker|][0] == s[i];
      }
    }
  }

  /** `split("Score:")[1]` of the reply starts with the text written after its first `Score:`. */
  lemma {:induction false} SecondPieceStartsWith(prefix: string, head: string, rest: string)
    requires forall i :: !OccursAt(prefix, Marker, i)
    requires forall k :: 0 <= k < |head| ==> head[k] != 'S'
    ensures exists w :: SplitSecond(prefix + Marker + head + rest, Marker) == Some(head + w)
  {
    var reply := prefix + Marker + head + rest;
    assert reply == prefix + Marker + (head + rest);
    MarkerAfterPrefix(prefix, head + rest);
    var from := |prefix| + |Marker|;
    assert reply[from..] == head + rest;
    assert reply[from..from + |head|] == head;
    NoMarkerStartsIn(reply, from, head);
    match IndexFrom(reply, Marker, from)
    case None =>
      assert SplitSecond(reply, Marker) == Some(head + rest);
    case Some(j) =>
      assert j >= from + |head|;
      assert reply[from..j] == head + rest[..j - from - |head|];
      assert SplitSecond(reply, Marker) == Some(head + rest[..j - from - |head|]);
  }

  /** Left-stripping `" " + x + w`, where `x` starts with a non-space, leaves `x + w`. */
  lemma LStripPadded(x: string, w: string)
    requires x != [] && !IsSpace(x[0])
    ensures LStrip([' '] + (x + w)) == x + w
  {
    LStripSpace(x + w);
    assert (x + w)[0] == x[0];
    LStripStops(x + w);
  }

  /** Stripping `" " + d + "/" + w` keeps `d + "/"` in front. */
  lemma StripKeepsDigitsAndSlash(d: string, w: string)
    requires d != [] && AllDigits(d)
    ensures Strip(" " + d + "/" + w) == d + "/" + RStrip(w)
  {
    var x := d + "/";
    assert x[0] == d[0] && IsDigit(d[0]);
    assert x[|x| - 1] == '/';
    assert " " + d + "/" + w == [' '] + (x + w);
    LStripPadded(x, w);
    RStripAfterNonSpace(x, w);
  }

  /** Cutting `d + "/" + v` at its first `/` leaves the digits `d`. */
  lemma CutAtSlash(d: string, v: string)
    requires AllDigits(d)
    ensures SplitFirst(d + "/" + v, "/") == d
  {
    var s := d + "/" + v;
    assert s[|d|..|d| + 1] == "/";
    forall i | 0 <= i < |d| ensures !OccursAt(s, "/", i) {
      assert s[i..i + 1][0] == s[i] == d[i];
    }
    IndexOfIsFirstOccurrence(s, "/", |d|);
    assert s[..|d|] == d;
  }

  /** Stripping `" " + d + "/" + w` and cutting at the first `/` gives back the digits `d`. */
  lemma DigitsBeforeSlash(d: string, w: string)
    requires d != [] && AllDigits(d)
    ensures SplitFirst(Strip(" " + d + "/" + w), "/") == d
  {
    StripKeepsDigitsAndSlash(d, w);
    CutAtSlash(d, RStrip(w));
  }

  /** In a reply reading `... Score: <d>/...`, the score text is the digits `d`. */
  lemma ScoreTextOfDigits(prefix: string, d: string, rest: string)
    requires forall i :: !OccursAt(prefix, Marker, i)
    requires d != [] && AllDigits(d)
    ensures ScoreText(prefix + Marker + " " + d + "/" + rest) == Some(d)
  {
    var head := " " + d + "/";
    assert prefix + Marker + " " + d + "/" + rest == prefix + Marker + head + rest;
    SecondPieceStartsWith(prefix, head, rest);
    var w :| SplitSecond(prefix + Marker + head + rest, Marker) == Some(head + w);
    assert head + w == " " + d + "/" + w;
    DigitsBeforeSlash(d, w);
  }

  /** A reply reading `... Score: <n>/...` scores `n`, whatever follows the slash. */
  lemma ScoreRoundTrip(prefix: string, n: nat, rest: string)
    requires forall i :: !OccursAt(prefix, Marker, i)
    requires |NatToDigits(n)| <= MaxStrDigits
    ensures ExtractScore(prefix + Marker + " " + NatToDigits(n) + "/" + rest) == Some(n)
  {
    ScoreTextOfDigits(prefix, NatToDigits(n), rest);
    ParseIntOfDigits(n);
  }

  /** A score with more digits than `int()` converts raises `ValueError`, and so there is no score. */
  lemma OverlongScoreIsNone(prefix: string, d: string, rest: string)
    requires forall i :: !OccursAt(prefix, Marker, i)
    requires AllDigits(d) && |d| > MaxStrDigits
    ensures ExtractScore(prefix + Marker + " " + d + "/" + rest) == None
  {
    ScoreTextOfDigits(prefix, d, rest);
    ParseIntRefusesLongDigits(d);
  }

  /**
   * A second `Score:` before the number ends the piece: a reply starting
   * `Score: Score:`, such as `"Score: Score: 8/10"`, has no score.
   */
  lemma SecondMarkerEndsPiece(rest: string)
    ensures ExtractScore(Marker + " " + Marker + rest) == None
  {
    var reply := Marker + " " + Marker + rest;
    PieceBetweenMarkers(rest);
    StripOneSpace();
    assert SplitFirst([], "/") == [];
    assert ScoreText(reply) == Some([]);
    assert ParseInt([]) == None;
  }

  /** A lone space strips to nothing. */
  lemma StripOneSpace()
    ensures Strip(" ") == []
  {
    LStripSpace([]);
    assert [' '] + [] == " ";
  }

  /** In a reply starting `Score: Score:`, the piece after the first `Score:` is the one space. */
  lemma PieceBetweenMarkers(rest: string)
    ensures SplitSecond(Marker + " " + Marker + rest, Marker) == Some(" ")
  {
    var reply := Marker + " " + Marker + rest;
    assert reply[..|Marker|] == Marker;
    IndexOfIsFirstOccurrence(reply, Marker, 0);
    assert OccursAt(reply, Marker, 7) by {
      assert reply[7..13] == Marker;
    }
    assert !OccursAt(reply, Marker, 6) by {
      assert reply[6..12][0] == reply[6] == ' ';
    }
    assert IndexFrom(reply, Marker, 6) == Some(7);
    assert reply[6..7] == " ";
  }
}
