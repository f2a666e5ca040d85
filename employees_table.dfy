/** The initials badge of the employees table: the first letter of each word of
    the name, upper-cased. */
module EmployeesTable {
  import opened Text
  import opened Seqs

  predicate NonEmpty(w: string) { w != [] }

  /** `words.map(n => n[0]).join('')`: an empty word has no first character
      (`n[0]` is `undefined`) and contributes nothing to the join. */
  function FirstChars(words: seq<string>): string
  {
    if words == [] then []
    else (if words[0] == [] then [] else [words[0][0]]) + FirstChars(words[1..])
  }

  /** The joined first characters are exactly the first characters of the
      non-empty words, in order. */
  lemma {:induction false} FirstCharsSpec(words: seq<string>)
    ensures |FirstChars(words)| == |Filter(words, NonEmpty)|
    ensures forall k | 0 <= k < |FirstChars(words)| ::
              FirstChars(words)[k] == Filter(words, NonEmpty)[k][0]
    decreases |words|
  {
    if words != [] {
      FirstCharsSpec(words[1..]);
      var tail, kept := FirstChars(words[1..]), Filter(words[1..], NonEmpty);
      var chars, words' := FirstChars(words), Filter(words, NonEmpty);
      if words[0] != [] {
        assert chars == [words[0][0]] + tail;
        assert words' == [words[0]] + kept;
        forall k | 0 <= k < |chars| ensures chars[k] == words'[k][0] {
          if k > 0 {
            assert chars[k] == tail[k - 1] && words'[k] == kept[k - 1];
          }
        }
      } else {
        assert chars == tail;
        assert words' == kept;
      }
    }
  }

  /** `getInitials(name)`: one upper-cased letter per non-empty space-separated
      word, in order. */
  function GetInitials(name: string): (r: string)
    ensures |r| == |Filter(Split(name, ' '), NonEmpty)|
    ensures forall k | 0 <= k < |r| :: r[k] == UpperChar(Filter(Split(name, ' '), NonEmpty)[k][0])
  {
    FirstCharsSpec(Split(name, ' '));
    Upper(FirstChars(Split(name, ' ')))
  }

  /** A name made of non-empty words joined by single spaces has one initial per
      word: the word's first letter, upper-cased. */
  lemma InitialsOfWords(words: seq<string>)
    requires |words| >= 1
    requires forall k | 0 <= k < |words| :: words[k] != [] && ' ' !in words[k]
    ensures GetInitials(Join(words, ' ')) == seq(|words|, k requires 0 <= k < |words| => UpperChar(words[k][0]))
  {
    SplitJoin(words, ' ');
    FilterKeepsAll(words, NonEmpty);
  }
}
