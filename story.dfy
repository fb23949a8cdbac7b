/** The reportlab "story" the three PDF scripts build: a list of flowables,
    grown line by line from a text by a per-line classifier. */
module Story {

  /** `Spacer(width, height)` and `Paragraph(text, style)`; a style is
      named by its style-sheet key. */
  datatype Flowable = Spacer(width: nat, height: nat) | Paragraph(text: string, style: string)

  /** The story of a sequence of lines: the elements of each line, in line
      order. */
  function StoryOf(lines: seq<string>, classify: string -> seq<Flowable>): seq<Flowable>
    decreases |lines|
  {
    if lines == [] then [] else StoryOf(lines[..|lines| - 1], classify) + classify(lines[|lines| - 1])
  }

  /** The loop step: one more line appends its elements. */
  lemma StoryStep(lines: seq<string>, i: nat, classify: string -> seq<Flowable>)
    requires i < |lines|
    ensures StoryOf(lines[..i + 1], classify) == StoryOf(lines[..i], classify) + classify(lines[i])
  {
    assert lines[..i + 1][..i] == lines[..i];
  }

  lemma StoryWhole(lines: seq<string>, classify: string -> seq<Flowable>)
    ensures StoryOf(lines[..|lines|], classify) == StoryOf(lines, classify)
  {
    assert lines[..|lines|] == lines;
  }

  /** The stories of two runs of lines, one after the other. */
  lemma {:induction false} StoryAppend(a: seq<string>, b: seq<string>, classify: string -> seq<Flowable>)
    ensures StoryOf(a + b, classify) == StoryOf(a, classify) + StoryOf(b, classify)
    decreases |b|
  {
    if b == [] {
      assert a + b == a;
    } else {
      var init := b[..|b| - 1];
      assert (a + b)[..|a + b| - 1] == a + init;
      assert (a + b)[|a + b| - 1] == b[|b| - 1];
      StoryAppend(a, init, classify);
    }
  }

  /** Line `i` owns a contiguous block of the story, right after the
      elements of the lines before it, holding exactly its own elements. */
  lemma StoryBlock(lines: seq<string>, i: nat, classify: string -> seq<Flowable>)
    requires i < |lines|
    ensures var start := |StoryOf(lines[..i], classify)|;
      var story := StoryOf(lines, classify);
      && start + |classify(lines[i])| <= |story|
      && story[start..start + |classify(lines[i])|] == classify(lines[i])
  {
    assert lines == lines[..i + 1] + lines[i + 1..];
    StoryAppend(lines[..i + 1], lines[i + 1..], classify);
    StoryStep(lines, i, classify);
  }
}
