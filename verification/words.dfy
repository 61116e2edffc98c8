/** The word records built from a text file of custom words (words.js
    `makeWordsFromFile`, lines 72-85): one record per non-empty line, in
    order, whose `word` is the line with spaces turned into underscores and
    whose `display_as` is the line itself. */
module Words {
  import opened Lines

  datatype WordRecord = WordRecord(word: string, displayAs: string)

  /** `line.replace(/ /gi, '_')`: every space (and only the space
      character) becomes an underscore. */
  function ReplaceSpaces(line: string): (w: string)
    ensures |w| == |line|
    ensures forall i :: 0 <= i < |w| ==> w[i] == (if line[i] == ' ' then '_' else line[i])
  {
    if |line| == 0 then ""
    else [if line[0] == ' ' then '_' else line[0]] + ReplaceSpaces(line[1..])
  }

  function MakeWord(line: string): WordRecord {
    WordRecord(ReplaceSpaces(line), line)
  }

  /** What a record promises: a non-empty `display_as`, and a `word` of the
      same length with no space, agreeing with `display_as` on every other
      character. */
  predicate WellFormed(r: WordRecord) {
    && r.displayAs != ""
    && |r.word| == |r.displayAs|
    && ' ' !in r.word
    && forall i :: 0 <= i < |r.word| && r.displayAs[i] != ' ' ==> r.word[i] == r.displayAs[i]
  }

  /** The records for `lines[k..]`: map each line to a record, then drop
      the empty ones. */
  function RecordsFrom(lines: seq<string>, k: nat): (rs: seq<WordRecord>)
    requires k <= |lines|
    ensures |rs| <= |lines| - k
    ensures forall i :: 0 <= i < |rs| ==> WellFormed(rs[i])
    decreases |lines| - k
  {
    if k == |lines| then []
    else if lines[k] == "" then RecordsFrom(lines, k + 1)
    else [MakeWord(lines[k])] + RecordsFrom(lines, k + 1)
  }

  /** `makeWordsFromFile` once the file has been read as `data`. */
  function MakeWords(data: string): (rs: seq<WordRecord>)
    ensures forall i :: 0 <= i < |rs| ==> WellFormed(rs[i])
  {
    RecordsFrom(SplitLines(data), 0)
  }

  /** The positions, from `k` on, of the non-empty lines, in increasing
      order. */
  function NonEmptyFrom(lines: seq<string>, k: nat): (ix: seq<nat>)
    requires k <= |lines|
    ensures forall i :: 0 <= i < |ix| ==> k <= ix[i] < |lines| && lines[ix[i]] != ""
    ensures forall i, j :: 0 <= i < j < |ix| ==> ix[i] < ix[j]
    ensures forall p :: k <= p < |lines| && lines[p] != "" ==> p in ix
    decreases |lines| - k
  {
    if k == |lines| then []
    else if lines[k] == "" then NonEmptyFrom(lines, k + 1)
    else [k] + NonEmptyFrom(lines, k + 1)
  }

  /** The records are exactly the non-empty lines, in order: the `i`-th
      record comes from the `i`-th non-empty line. */
  lemma {:induction false} RecordsFollowLines(lines: seq<string>, k: nat)
    requires k <= |lines|
    ensures |RecordsFrom(lines, k)| == |NonEmptyFrom(lines, k)|
    ensures forall i :: 0 <= i < |RecordsFrom(lines, k)| ==>
              RecordsFrom(lines, k)[i] == MakeWord(lines[NonEmptyFrom(lines, k)[i]])
    decreases |lines| - k
  {
    if k < |lines| {
      RecordsFollowLines(lines, k + 1);
    }
  }

  /** Reading `display_as` back off the records gives the non-empty lines of
      the text, in order; nothing else is lost. */
  lemma MakeWordsDisplayLines(data: string)
    ensures var rs := MakeWords(data);
            var ix := NonEmptyFrom(SplitLines(data), 0);
            |rs| == |ix| &&
            forall i :: 0 <= i < |rs| ==>
              rs[i].displayAs == SplitLines(data)[ix[i]] && rs[i].word == ReplaceSpaces(rs[i].displayAs)
  {
    RecordsFollowLines(SplitLines(data), 0);
  }

  /** A text written as non-empty lines joined by `\r\n` gives one record
      per line, in order. */
  lemma WordsOfCrLfText(lines: seq<string>)
    requires |lines| >= 1
    requires forall i :: 0 <= i < |lines| ==> lines[i] != "" && '\n' !in lines[i]
    ensures |MakeWords(Join(lines, "\r\n"))| == |lines|
    ensures forall i :: 0 <= i < |lines| ==> MakeWords(Join(lines, "\r\n"))[i] == MakeWord(lines[i])
  {
    SplitJoinCrLf(lines);
    AllNonEmptyKept(lines, 0);
  }

  /** With no empty line, every line from `k` on gives a record. */
  lemma {:induction false} AllNonEmptyKept(lines: seq<string>, k: nat)
    requires k <= |lines|
    requires forall i :: k <= i < |lines| ==> lines[i] != ""
    ensures |RecordsFrom(lines, k)| == |lines| - k
    ensures forall i :: 0 <= i < |lines| - k ==> RecordsFrom(lines, k)[i] == MakeWord(lines[k + i])
    decreases |lines| - k
  {
    if k < |lines| {
      AllNonEmptyKept(lines, k + 1);
    }
  }

  /** The loop form of the transform: walk the lines once, appending a
      record for each non-empty one. */
  method BuildWords(lines: seq<string>) returns (rs: seq<WordRecord>)
    ensures rs == RecordsFrom(lines, 0)
    ensures |rs| == |NonEmptyFrom(lines, 0)|
  {
    rs := [];
    var k := 0;
    while k < |lines|
      invariant k <= |lines|
      invariant rs + RecordsFrom(lines, k) == RecordsFrom(lines, 0)
    {
      if lines[k] != "" {
        rs := rs + [MakeWord(lines[k])];
      }
      k := k + 1;
    }
    RecordsFollowLines(lines, 0);
  }
}
