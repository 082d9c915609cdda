/** Exactly which cuts between polls leave the published lines as the file has them. */
module LogCuts {
  import opened Basics
  import opened Specs
  import opened LogTail

  // ----- the line around a cut -----

  /** The unfinished line at the end of a text. */
  function Tail(s: string): string {
    if s == "" || IsBreak(s[|s| - 1]) then "" else Tail(s[..|s| - 1]) + [s[|s| - 1]]
  }

  /** The text up to its first line break. */
  function Head(s: string): string {
    if s == "" || IsBreak(s[0]) then "" else [s[0]] + Head(s[1..])
  }

  /** The cut stands at a line start, just before a break or the end, or within a blank line. */
  predicate HarmlessCut(a: string, b: string) {
    Tail(a) == "" || Head(b) == "" || !NotBlank(Tail(a) + Head(b))
  }

  predicate HarmlessAt(text: string, k: nat)
    requires k <= |text|
  {
    HarmlessCut(text[..k], text[k..])
  }

  /** The text without its unfinished line. */
  function Body(s: string): string {
    if s == "" || IsBreak(s[|s| - 1]) then s else Body(s[..|s| - 1])
  }

  lemma {:induction false} TailSplits(s: string)
    ensures s == Body(s) + Tail(s) && WholeLines(Body(s))
  {
    if s != "" && !IsBreak(s[|s| - 1]) {
      TailSplits(s[..|s| - 1]);
      assert s == s[..|s| - 1] + [s[|s| - 1]];
    }
  }

  lemma {:induction false} TailUnbroken(s: string)
    ensures forall c :: c in Tail(s) ==> !IsBreak(c)
  {
    if s != "" && !IsBreak(s[|s| - 1]) {
      TailUnbroken(s[..|s| - 1]);
    }
  }

  lemma {:induction false} HeadSplits(s: string)
    ensures |Head(s)| <= |s| && s == Head(s) + s[|Head(s)|..]
    ensures s[|Head(s)|..] == "" || IsBreak(s[|Head(s)|..][0])
    ensures forall c :: c in Head(s) ==> !IsBreak(c)
  {
    if s != "" && !IsBreak(s[0]) {
      HeadSplits(s[1..]);
      assert s[|Head(s)|..] == s[1..][|Head(s[1..])|..];
      assert s == [s[0]] + s[1..];
    }
  }

  lemma {:induction false} TailOfLast(s: string, c: char)
    ensures Tail(s + [c]) == if IsBreak(c) then "" else Tail(s) + [c]
  {
    assert (s + [c])[..|s + [c]| - 1] == s;
  }

  lemma {:induction false} TailOfUnbroken(a: string, b: string)
    requires forall c :: c in b ==> !IsBreak(c)
    ensures Tail(a + b) == Tail(a) + b
  {
    if b == "" {
      assert a + b == a && Tail(a) + b == Tail(a);
    } else {
      var init, last := b[..|b| - 1], b[|b| - 1];
      TailOfUnbroken(a, init);
      TailOfLast(a + init, last);
      assert a + b == (a + init) + [last] && Tail(a) + b == Tail(a) + init + [last];
    }
  }

  lemma {:induction false} TailOfBroken(a: string, b: string)
    requires exists c :: c in b && IsBreak(c)
    ensures Tail(a + b) == Tail(b)
  {
    var init, last := b[..|b| - 1], b[|b| - 1];
    assert b == init + [last] && a + b == (a + init) + [last];
    TailOfLast(a + init, last);
    TailOfLast(init, last);
    if !IsBreak(last) {
      TailOfBroken(a, init);
    }
  }

  lemma {:induction false} TailConcat(a: string, b: string)
    ensures (exists c :: c in b && IsBreak(c)) ==> Tail(a + b) == Tail(b)
    ensures (forall c :: c in b ==> !IsBreak(c)) ==> Tail(a + b) == Tail(a) + b && Tail(b) == b
  {
    if forall c :: c in b ==> !IsBreak(c) {
      TailOfUnbroken(a, b);
      TailOfUnbroken("", b);
      assert "" + b == b && Tail("") + b == b;
    } else {
      TailOfBroken(a, b);
    }
  }

  lemma {:induction false} HeadConcat(a: string, b: string)
    requires forall c :: c in a ==> !IsBreak(c)
    ensures Head(a + b) == a + Head(b)
  {
    if a == "" {
      assert a + b == b;
    } else {
      assert (a + b)[0] == a[0] && (a + b)[1..] == a[1..] + b && a[0] in a;
      HeadConcat(a[1..], b);
      assert [a[0]] + (a[1..] + Head(b)) == a + Head(b);
    }
  }

  // ----- blank lines -----

  predicate AllSpace(s: string) { forall c :: c in s ==> IsSpace(c) }

  lemma {:induction false} LStripEmpty(s: string)
    ensures LStrip(s) == "" <==> AllSpace(s)
    ensures LStrip(s) != "" ==> !IsSpace(LStrip(s)[0])
  {
    if s != "" && IsSpace(s[0]) {
      LStripEmpty(s[1..]);
      assert s == [s[0]] + s[1..];
    } else if s != "" {
      assert s[0] in s;
    }
  }

  lemma {:induction false} RStripKeeps(s: string)
    requires s != "" && !IsSpace(s[0])
    ensures RStrip(s) != ""
  {
    if IsSpace(s[|s| - 1]) {
      RStripKeeps(s[..|s| - 1]);
    }
  }

  lemma {:induction false} BlankIsAllSpace(s: string)
    ensures NotBlank(s) <==> !AllSpace(s)
  {
    LStripEmpty(s);
    if LStrip(s) != "" {
      RStripKeeps(LStrip(s));
    }
  }

  lemma {:induction false} BlankConcat(a: string, b: string)
    ensures NotBlank(a + b) <==> NotBlank(a) || NotBlank(b)
  {
    BlankIsAllSpace(a);
    BlankIsAllSpace(b);
    BlankIsAllSpace(a + b);
    assert forall c :: c in a + b <==> c in a || c in b;
  }

  // ----- one cut -----

  /** The published form of one line. */
  function Shown(line: string): seq<string> { if NotBlank(line) then [line] else [] }

  function Behind(s: string): string { if s == "" then "" else s[1..] }

  lemma {:induction false} EmptyIsBlank()
    ensures !NotBlank("")
  {
  }

  lemma {:induction false} LineThenRest(line: string, rest: string)
    requires forall c :: c in line ==> !IsBreak(c)
    requires rest == "" || IsBreak(rest[0])
    ensures Lines(line + rest) == Shown(line) + Lines(Behind(rest))
  {
    WordLine("", line, rest);
    assert "" + line == line;
    EmptyIsBlank();
    assert Filter(NotBlank, [line]) == Shown(line) by { assert [line][1..] == []; }
    if rest == "" {
      assert SplitLines(line + rest) == if line == "" then [] else [line];
      assert Lines("") == [];
    } else {
      FilterConcat(NotBlank, [line], SplitLines(rest[1..]));
    }
  }

  /** A text taken up at its unfinished line. */
  lemma {:induction false} FromUnfinished(a: string, b: string)
    ensures Lines(a + b) == Lines(Body(a)) + Lines(Tail(a) + b)
  {
    TailSplits(a);
    LinesConcat(Body(a), Tail(a) + b);
    assert a + b == Body(a) + (Tail(a) + b);
  }

  /** An unbroken start and the head behind it make one line. */
  lemma {:induction false} LineAndMore(u: string, b: string)
    requires forall c :: c in u ==> !IsBreak(c)
    ensures |Head(b)| <= |b|
    ensures Lines(u + b) == Shown(u + Head(b)) + Lines(Behind(b[|Head(b)|..]))
  {
    HeadSplits(b);
    var b0 := b[|Head(b)|..];
    LineThenRest(u + Head(b), b0);
    assert u + b == (u + Head(b)) + b0;
  }

  lemma {:induction false} LineAlone(u: string)
    requires forall c :: c in u ==> !IsBreak(c)
    ensures Lines(u) == Shown(u)
  {
    LineThenRest(u, "");
    assert u + "" == u && Lines(Behind("")) == [];
  }

  lemma {:induction false} LinesBefore(a: string)
    ensures Lines(a) == Lines(Body(a)) + Shown(Tail(a))
  {
    FromUnfinished(a, "");
    TailUnbroken(a);
    LineAlone(Tail(a));
    assert a + "" == a && Tail(a) + "" == Tail(a);
  }

  lemma {:induction false} LinesBehind(b: string)
    ensures |Head(b)| <= |b|
    ensures Lines(b) == Shown(Head(b)) + Lines(Behind(b[|Head(b)|..]))
  {
    LineAndMore("", b);
    assert "" + b == b && "" + Head(b) == Head(b);
  }

  lemma {:induction false} LinesAround(a: string, b: string)
    ensures |Head(b)| <= |b|
    ensures Lines(a + b) == Lines(Body(a)) + (Shown(Tail(a) + Head(b)) + Lines(Behind(b[|Head(b)|..])))
  {
    FromUnfinished(a, b);
    TailUnbroken(a);
    LineAndMore(Tail(a), b);
  }

  /** The lines before, around and behind a cut. */
  lemma {:induction false} AroundCut(a: string, b: string)
    ensures |Head(b)| <= |b|
    ensures Lines(a) + Lines(b) == Lines(Body(a)) + (Shown(Tail(a)) + Shown(Head(b))) + Lines(Behind(b[|Head(b)|..]))
    ensures Lines(a + b) == Lines(Body(a)) + Shown(Tail(a) + Head(b)) + Lines(Behind(b[|Head(b)|..]))
  {
    LinesBefore(a);
    LinesBehind(b);
    LinesAround(a, b);
    Regroup(Lines(Body(a)), Shown(Tail(a)), Shown(Head(b)), Lines(Behind(b[|Head(b)|..])));
    Reassociate(Lines(Body(a)), Shown(Tail(a) + Head(b)), Lines(Behind(b[|Head(b)|..])));
  }

  lemma {:induction false} Regroup<T>(a: seq<T>, b: seq<T>, c: seq<T>, d: seq<T>)
    ensures (a + b) + (c + d) == a + (b + c) + d
  {
  }

  lemma {:induction false} Reassociate<T>(a: seq<T>, b: seq<T>, c: seq<T>)
    ensures a + (b + c) == a + b + c
  {
  }

  // ----- counting -----

  function Size(lines: seq<string>): nat { if lines == [] then 0 else |lines[0]| + Size(lines[1..]) }

  lemma {:induction false} SizeConcat(a: seq<string>, b: seq<string>)
    ensures Size(a + b) == Size(a) + Size(b)
  {
    if a == [] {
      assert a + b == b;
    } else {
      assert (a + b)[0] == a[0] && (a + b)[1..] == a[1..] + b;
      SizeConcat(a[1..], b);
    }
  }

  /** More lines, or as many with no more text. */
  predicate Torn(x: seq<string>, y: seq<string>) { |x| > |y| || (|x| == |y| && Size(x) <= Size(y)) }

  predicate SameCount(x: seq<string>, y: seq<string>) { |x| == |y| && Size(x) == Size(y) }

  lemma {:induction false} OneLineTorn(u: string, v: string)
    ensures Torn(Shown(u) + Shown(v), Shown(u + v))
    ensures SameCount(Shown(u) + Shown(v), Shown(u + v)) <==> u == "" || v == "" || !NotBlank(u + v)
    ensures u == "" || v == "" || !NotBlank(u + v) ==> Shown(u) + Shown(v) == Shown(u + v)
  {
    BlankConcat(u, v);
    EmptyIsBlank();
    SizeConcat(Shown(u), Shown(v));
    assert u == "" ==> u + v == v;
    assert v == "" ==> u + v == u;
    assert Size(Shown(u)) == if NotBlank(u) then |u| else 0;
    assert Size(Shown(v)) == if NotBlank(v) then |v| else 0;
    assert Size(Shown(u + v)) == if NotBlank(u + v) then |u + v| else 0;
  }

  /** Two pieces of text publish at least as torn as the whole, alike exactly when the cut is harmless. */
  lemma {:induction false} OneCut(a: string, b: string)
    ensures Torn(Lines(a) + Lines(b), Lines(a + b))
    ensures SameCount(Lines(a) + Lines(b), Lines(a + b)) <==> HarmlessCut(a, b)
    ensures HarmlessCut(a, b) ==> Lines(a) + Lines(b) == Lines(a + b)
  {
    AroundCut(a, b);
    HeadSplits(b);
    var before, behind := Lines(Body(a)), Lines(Behind(b[|Head(b)|..]));
    OneLineTorn(Tail(a), Head(b));
    Framed(before, Shown(Tail(a)) + Shown(Head(b)), behind);
    Framed(before, Shown(Tail(a) + Head(b)), behind);
  }

  lemma {:induction false} Framed(before: seq<string>, middle: seq<string>, behind: seq<string>)
    ensures |before + middle + behind| == |before| + |middle| + |behind|
    ensures Size(before + middle + behind) == Size(before) + Size(middle) + Size(behind)
  {
    SizeConcat(before + middle, behind);
    SizeConcat(before, middle);
  }

  // ----- all cuts -----

  /** Every cut is harmless between the chunk before it and all that follows. */
  predicate HarmlessNext(chunks: seq<string>) {
    chunks == [] || (HarmlessCut(chunks[0], Flatten(chunks[1..])) && HarmlessNext(chunks[1..]))
  }

  /** Every cut is harmless in the whole text, of which `read` precedes the chunks. */
  predicate HarmlessAll(read: string, chunks: seq<string>)
    decreases chunks
  {
    chunks == [] || (HarmlessCut(read + chunks[0], Flatten(chunks[1..])) && HarmlessAll(read + chunks[0], chunks[1..]))
  }

  lemma {:induction false} ManyCuts(chunks: seq<string>)
    ensures Torn(LinesOfAll(chunks), Lines(Flatten(chunks)))
    ensures SameCount(LinesOfAll(chunks), Lines(Flatten(chunks))) <==> HarmlessNext(chunks)
    ensures HarmlessNext(chunks) ==> LinesOfAll(chunks) == Lines(Flatten(chunks))
  {
    if chunks == [] {
      assert Lines("") == [];
    } else {
      var c, rest := chunks[0], chunks[1..];
      ManyCuts(rest);
      OneCut(c, Flatten(rest));
      SizeConcat(Lines(c), LinesOfAll(rest));
      SizeConcat(Lines(c), Lines(Flatten(rest)));
    }
  }

  lemma {:induction false} UnbrokenJudgement(u: string, c: string, v: string)
    requires u == "" || c + v == "" || !NotBlank(u + (c + v))
    ensures (c == "" || v == "" || !NotBlank(c + v)) <==> (u + c == "" || v == "" || !NotBlank(u + c + v))
  {
    BlankConcat(u, c + v);
    BlankConcat(c, v);
    BlankConcat(u + c, v);
    BlankConcat(u, c);
    EmptyIsBlank();
    assert u == "" ==> u + c == c;
  }

  /** A cut behind a chunk is judged alike with or without the text before the chunk. */
  lemma {:induction false} SameJudgement(read: string, c: string, rest: string)
    requires HarmlessCut(read, c + rest)
    ensures HarmlessCut(c, rest) <==> HarmlessCut(read + c, rest)
  {
    TailConcat(read, c);
    if forall x :: x in c ==> !IsBreak(x) {
      HeadConcat(c, rest);
      UnbrokenJudgement(Tail(read), c, Head(rest));
    }
  }

  lemma {:induction false} SameJudgements(read: string, chunks: seq<string>)
    requires HarmlessCut(read, Flatten(chunks))
    ensures HarmlessNext(chunks) <==> HarmlessAll(read, chunks)
    decreases chunks
  {
    if chunks != [] {
      SameJudgement(read, chunks[0], Flatten(chunks[1..]));
      if HarmlessCut(read + chunks[0], Flatten(chunks[1..])) {
        SameJudgements(read + chunks[0], chunks[1..]);
      }
    }
  }

  // ----- polls -----

  /** Every readable poll ends at a harmless place of the final file. */
  predicate HarmlessPolls(polls: seq<Poll>, final: string) {
    forall i :: 0 <= i < |polls| && polls[i].Some? ==> |polls[i].value| <= |final| && HarmlessAt(final, |polls[i].value|)
  }

  lemma {:induction false} HarmlessPollsUnfold(polls: seq<Poll>, final: string)
    requires polls != []
    ensures HarmlessPolls(polls, final) <==>
      && (polls[0].Some? ==> |polls[0].value| <= |final| && HarmlessAt(final, |polls[0].value|))
      && HarmlessPolls(polls[1..], final)
  {
    if HarmlessPolls(polls, final) {
      forall i | 0 <= i < |polls[1..]| && polls[1..][i].Some?
        ensures |polls[1..][i].value| <= |final| && HarmlessAt(final, |polls[1..][i].value|)
      {
        assert polls[1..][i] == polls[i + 1];
      }
    }
    if HarmlessPolls(polls[1..], final) {
      assert forall i :: 1 <= i < |polls| ==> polls[i] == polls[1..][i - 1];
    }
  }

  /** The chunks behind `read`, the flushed one last. */
  function Pieces(polls: seq<Poll>, read: string, final: string): seq<string>
    requires Grows(polls, read, final)
  {
    OffsetIsLength(polls, read, final);
    Chunks(polls, |read|) + [final[Offset(polls, |read|)..]]
  }

  lemma {:induction false} FlattenLast(chunks: seq<string>, last: string)
    ensures Flatten(chunks + [last]) == Flatten(chunks) + last
  {
    FlattenConcat(chunks, [last]);
    assert [last][1..] == [] && Flatten([last]) == last + [];
  }

  lemma {:induction false} PiecesFlatten(polls: seq<Poll>, read: string, final: string)
    requires Grows(polls, read, final)
    ensures |read| <= |final| && Flatten(Pieces(polls, read, final)) == final[|read|..]
  {
    OffsetIsLength(polls, read, final);
    var k := Offset(polls, |read|);
    FlattenLast(Chunks(polls, |read|), final[k..]);
    CutTogether(read, Flatten(Chunks(polls, |read|)), final, k);
  }

  lemma {:induction false} CutTogether(read: string, middle: string, final: string, k: nat)
    requires k <= |final| && read + middle == final[..k]
    ensures |read| <= |final| && middle + final[k..] == final[|read|..]
  {
    assert final == final[..k] + final[k..];
    assert final == read + (middle + final[k..]);
  }

  lemma {:induction false} PollsAreCuts(polls: seq<Poll>, read: string, final: string)
    requires Grows(polls, read, final)
    requires |read| <= |final| ==> read == final[..|read|] && HarmlessAt(final, |read|)
    ensures HarmlessAll(read, Pieces(polls, read, final)) <==> HarmlessPolls(polls, final)
  {
    OffsetIsLength(polls, read, final);
    if polls == [] {
      assert Pieces(polls, read, final) == [final[|read|..]];
      assert [final[|read|..]][1..] == [] && Head("") == "";
    } else {
      HarmlessPollsUnfold(polls, final);
      match polls[0]
      case None => PollsAreCuts(polls[1..], read, final);
      case Some(text) =>
        OffsetIsLength(polls[1..], text, final);
        GrowthPrefix(polls[1..], text, final);
        if |read| < |text| {
          TextIsCut(polls, read, text, final);
          if HarmlessAt(final, |text|) {
            PollsAreCuts(polls[1..], text, final);
          }
        } else {
          assert text == read;
          PollsAreCuts(polls[1..], read, final);
        }
    }
  }

  lemma {:induction false} GrowthPrefix(polls: seq<Poll>, read: string, final: string)
    requires Grows(polls, read, final)
    ensures read <= final
  {
    if polls != [] {
      match polls[0]
      case None => GrowthPrefix(polls[1..], read, final);
      case Some(text) => GrowthPrefix(polls[1..], text, final);
    }
  }

  lemma {:induction false} TextIsCut(polls: seq<Poll>, read: string, text: string, final: string)
    requires Grows(polls, read, final) && polls != [] && polls[0] == Some(text) && |read| < |text| && text <= final
    ensures HarmlessAll(read, Pieces(polls, read, final)) <==>
      HarmlessAt(final, |text|) && HarmlessAll(text, Pieces(polls[1..], text, final))
  {
    var pieces, later := Pieces(polls, read, final), Pieces(polls[1..], text, final);
    assert pieces == [text[|read|..]] + later;
    assert pieces[0] == text[|read|..] && pieces[1..] == later;
    assert read + text[|read|..] == text;
    PiecesFlatten(polls[1..], text, final);
    assert final[..|text|] == text;
  }

  /**
   The published lines are the file's non-blank lines exactly when every poll ends at a
   line start, just before a break, at the end, or within a blank line.
   */
  lemma {:induction false} PublishedAreTheLinesIff(polls: seq<Poll>, final: string)
    requires Grows(polls, "", final)
    ensures Offset(polls, 0) <= |final|
    ensures LinesOfAll(Chunks(polls, 0)) + Lines(final[Offset(polls, 0)..]) == Lines(final) <==> HarmlessPolls(polls, final)
  {
    OffsetIsLength(polls, "", final);
    var pieces := Pieces(polls, "", final);
    PiecesFlatten(polls, "", final);
    assert final[|""|..] == final;
    ManyCuts(pieces);
    assert Tail("") == "" && final[..|""|] == "";
    SameJudgements("", pieces);
    PollsAreCuts(polls, "", final);
    LinesOfPieces(Chunks(polls, 0), final[Offset(polls, 0)..]);
  }

  lemma {:induction false} LinesOfPieces(chunks: seq<string>, last: string)
    ensures LinesOfAll(chunks + [last]) == LinesOfAll(chunks) + Lines(last)
  {
    if chunks == [] {
      assert chunks + [last] == [last] && [last][1..] == [];
    } else {
      assert (chunks + [last])[0] == chunks[0] && (chunks + [last])[1..] == chunks[1..] + [last];
      LinesOfPieces(chunks[1..], last);
    }
  }
}
