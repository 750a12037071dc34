/**
 * The keyword parser of app/api/evaluate/route.ts: the language model is asked for
 * a comma-separated list, and its reply (the empty string when there is none) is
 * cut into at most ten search keywords.
 */
module Keywords {
  import opened Text
  import opened Seqs

  const MaxKeywords: nat := 10

  /** `.map(k => k.trim())` */
  function TrimAll(pieces: seq<string>): (r: seq<string>)
    ensures |r| == |pieces|
    ensures forall i :: 0 <= i < |pieces| ==> r[i] == Trim(pieces[i])
  {
    seq(|pieces|, i requires 0 <= i < |pieces| => Trim(pieces[i]))
  }

  predicate NonEmpty(k: string) { |k| > 0 }

  /** What a parsed keyword looks like: non-empty, trimmed, without commas or double quotes. */
  predicate WellFormed(k: string) {
    |k| > 0 && IsTrimmed(k) && ',' !in k && '"' !in k
  }

  /**
   * `replaceAll('"', '')`, `split(',')`, `trim` of each piece, dropping empty
   * pieces and keeping the first ten.
   */
  function ParseKeywords(reply: string): (ks: seq<string>)
    ensures |ks| <= MaxKeywords
    ensures forall k :: k in ks ==> WellFormed(k)
  {
    var pieces := Split(RemoveChar(reply, '"'), ',');
    var trimmed := TrimAll(pieces);
    var kept := Filter(trimmed, NonEmpty);
    forall k | k in kept ensures WellFormed(k) {
      var i :| 0 <= i < |trimmed| && trimmed[i] == k;
      TrimIsTrimmed(pieces[i]);
      TrimKeepsChars(pieces[i]);
      assert '"' !in pieces[i] by {
        assert forall c :: c in pieces[i] ==> c in RemoveChar(reply, '"') by {
          SplitKeepsChars(RemoveChar(reply, '"'), ',');
        }
      }
    }
    Take(kept, MaxKeywords)
  }

  /** The pieces of a split are made of the characters of the input. */
  lemma {:induction false} SplitKeepsChars(s: string, sep: char)
    ensures forall k, c :: 0 <= k < |Split(s, sep)| && c in Split(s, sep)[k] ==> c in s
    decreases |s|
  {
    var i := IndexOfChar(s, sep);
    if i < |s| {
      SplitKeepsChars(s[i + 1..], sep);
      forall k, c | 0 <= k < |Split(s, sep)| && c in Split(s, sep)[k] ensures c in s {
        if k == 0 {
          assert c in s[..i];
        } else {
          assert Split(s, sep)[k] == Split(s[i + 1..], sep)[k - 1];
          assert c in s[i + 1..];
        }
      }
    }
  }

  /** Keeping the elements that satisfy `p` keeps everything when all do. */
  lemma {:induction false} FilterKeepsAll(s: seq<string>)
    requires forall i :: 0 <= i < |s| ==> NonEmpty(s[i])
    ensures Filter(s, NonEmpty) == s
    decreases |s|
  {
    if |s| > 0 {
      FilterKeepsAll(s[1..]);
      assert s == [s[0]] + s[1..];
      FilterAppend([s[0]], s[1..], NonEmpty);
    }
  }

  /** The padded pieces hold no separator and no quote. */
  lemma PaddedAvoids(ks: seq<string>)
    requires forall k :: k in ks ==> WellFormed(k)
    ensures forall k :: 0 <= k < |PrefixRest(ks, " ")| ==> '"' !in PrefixRest(ks, " ")[k] && ',' !in PrefixRest(ks, " ")[k]
  {
    var padded := PrefixRest(ks, " ");
    forall k | 0 <= k < |padded| ensures '"' !in padded[k] && ',' !in padded[k] {
      assert ks[k] in ks;
      assert padded[k] == ks[k] || padded[k] == " " + ks[k];
    }
  }

  /** Rejoining the padded pieces at bare commas gives the reply, which holds no quote to remove. */
  lemma PaddedReply(ks: seq<string>)
    requires forall k :: k in ks ==> WellFormed(k)
    ensures RemoveChar(Join(ks, ", "), '"') == Join(PrefixRest(ks, " "), [','])
  {
    var padded := PrefixRest(ks, " ");
    assert [','] + " " == ", ";
    JoinLongSeparator(ks, ',', " ");
    PaddedAvoids(ks);
    JoinAvoids(padded, [','], '"');
    RemoveAbsentChar(Join(ks, ", "), '"');
  }

  /** The reply cut at its commas gives the keywords, each after the first with its leading blank. */
  lemma JoinedPieces(ks: seq<string>)
    requires |ks| >= 1
    requires forall k :: k in ks ==> WellFormed(k)
    ensures Split(RemoveChar(Join(ks, ", "), '"'), ',') == PrefixRest(ks, " ")
  {
    PaddedReply(ks);
    PaddedAvoids(ks);
    SplitJoin(PrefixRest(ks, " "), ',');
  }

  /** Trimming removes exactly the blanks the separator put in front. */
  lemma TrimPrefixRest(ks: seq<string>)
    requires forall k :: k in ks ==> WellFormed(k)
    ensures TrimAll(PrefixRest(ks, " ")) == ks
  {
    var padded := PrefixRest(ks, " ");
    forall i | 0 <= i < |ks| ensures Trim(padded[i]) == ks[i] {
      assert ks[i] in ks;
      if i == 0 {
        TrimOfTrimmed(ks[0]);
      } else {
        assert AllWhitespace(" ");
        TrimPadded(" ", ks[i]);
      }
    }
  }

  /**
   * A reply written the way the prompt asks for (`a, b, c`, at most ten
   * well-formed keywords) parses back into exactly those keywords.
   */
  lemma ParseJoined(ks: seq<string>)
    requires |ks| <= MaxKeywords
    requires forall k :: k in ks ==> WellFormed(k)
    ensures ParseKeywords(Join(ks, ", ")) == ks
  {
    if |ks| == 0 {
      assert Split(RemoveChar("", '"'), ',') == [""];
      assert TrimAll([""]) == [""];
    } else {
      JoinedPieces(ks);
      TrimPrefixRest(ks);
      forall i | 0 <= i < |ks| ensures NonEmpty(ks[i]) {
        assert ks[i] in ks;
      }
      FilterKeepsAll(ks);
    }
  }
}
