/**
 * The few-shot style trainer of examples/style_training.py: it collects
 * writing samples, builds a prompt that shows the first few of them as
 * numbered examples followed by the writing task, sends it with generation
 * options derived from the word budget, and counts words and sentences.
 *
 * The sample directory is given as whether it exists and the names and
 * contents of its `*.txt` files in the order the directory listing yields
 * them; the service's answer is a parameter.
 */
module StyleTraining {
  import opened Wrappers
  import opened Text
  import opened Service

  datatype Sample = Sample(filename: string, content: string)

  /** a `*.txt` file of the sample directory */
  datatype SampleFile = SampleFile(name: string, contents: string)

  /** the body of the POST to /api/generate; temperature is passed through */
  datatype StyleRequest = StyleRequest(
    model: string,
    prompt: string,
    stream: bool,
    temperature: real,
    topP: real,
    topK: int,
    numPredict: int)

  /** the integer part of what analyze_style returns */
  datatype StyleStats = StyleStats(wordCount: nat, sentenceCount: nat)

  const DefaultNumExamples: int := 3
  const Header: string := "Study these writing examples and then write in the same style:\n\n"
  const TaskLead: string := "Now write in the same style for this task: "
  const ResponseCue: string := "RESPONSE:"

  /** what one file contributes: its stripped contents, when they are not empty */
  function Admit(file: SampleFile): Option<Sample> {
    var content := Strip(file.contents);
    if content != [] then Some(Sample(file.name, content)) else None
  }

  /** the samples load_writing_samples takes from the files, in listing order */
  function Accepted(files: seq<SampleFile>): seq<Sample> {
    FilterMap(files, Admit)
  }

  /** the values f gives for the elements of xs, in order, skipping the None ones */
  function FilterMap<A, B>(xs: seq<A>, f: A -> Option<B>): seq<B> {
    if xs == [] then []
    else
      var rest := FilterMap(xs[..|xs| - 1], f);
      var y := f(xs[|xs| - 1]);
      if y.Some? then rest + [y.value] else rest
  }

  /** y is kept exactly when f gives Some(y) for some element */
  lemma {:induction false} FilterMapMembers<A, B>(xs: seq<A>, f: A -> Option<B>)
    ensures forall y :: y in FilterMap(xs, f) <==> exists i :: 0 <= i < |xs| && f(xs[i]) == Some(y)
    decreases |xs|
  {
    if xs != [] {
      var n := |xs| - 1;
      var init := xs[..n];
      FilterMapMembers(init, f);
      assert forall i :: 0 <= i < n ==> init[i] == xs[i];
    }
  }

  /** Each sample taken from the files is non-empty and already stripped, and there are no more samples than files. */
  lemma {:induction false} AcceptedShape(files: seq<SampleFile>)
    ensures |Accepted(files)| <= |files|
    ensures forall i :: 0 <= i < |Accepted(files)| ==>
      Accepted(files)[i].content != [] && Accepted(files)[i].content == Strip(Accepted(files)[i].content)
    decreases |files|
  {
    if files != [] {
      var init := files[..|files| - 1];
      AcceptedShape(init);
      StripIdempotent(files[|files| - 1].contents);
    }
  }

  lemma StripIdempotent(s: string)
    ensures Strip(Strip(s)) == Strip(s)
  {
    var r := Strip(s);
    if r != [] {
      assert LeadingSpaces(r) == 0;
      assert TrailingSpaces(r) == 0;
    }
  }

  /** A file becomes a sample exactly when its stripped contents are non-empty. */
  lemma AcceptedSpec(files: seq<SampleFile>)
    ensures forall s :: s in Accepted(files) <==> exists i :: 0 <= i < |files| && Admit(files[i]) == Some(s)
  {
    FilterMapMembers(files, Admit);
  }

  /** `f"EXAMPLE {i}:\n{content}\n\n"` */
  function ExampleBlock(i: int, content: string): string {
    "EXAMPLE " + IntString(i) + ":\n" + content + "\n\n"
  }

  /** the example blocks for the samples, numbered from 1 */
  function Examples(samples: seq<Sample>): string {
    if samples == [] then ""
    else Examples(samples[..|samples| - 1]) + ExampleBlock(|samples|, samples[|samples| - 1].content)
  }

  /** create_style_prompt as a function of the stored samples */
  function StylePrompt(samples: seq<Sample>, task: string, numExamples: int): string {
    if samples == [] then task
    else Header + Examples(SliceTo(samples, numExamples)) + TaskLead + task + "\n\n" + ResponseCue
  }

  /**
   * Without samples the prompt is the task itself; with samples it starts
   * with the header, ends with the response cue and contains the task line.
   */
  lemma StylePromptShape(samples: seq<Sample>, task: string, numExamples: int)
    ensures samples == [] ==> StylePrompt(samples, task, numExamples) == task
    ensures samples != [] ==>
      var r := StylePrompt(samples, task, numExamples);
      && r[..|Header|] == Header
      && r[|r| - |ResponseCue|..] == ResponseCue
      && Contains(r, TaskLead + task)
  {
    if samples != [] {
      Framed(Header, Examples(SliceTo(samples, numExamples)), TaskLead, task, "\n\n", ResponseCue);
    }
  }

  lemma Regroup(a: string, b: string, c: string, d: string, e: string, f: string)
    ensures a + b + c + d + e + f == a + b + (c + d + e + f)
  {
  }

  /** a + b + c + d + e + f begins with a, ends with f and contains c + d */
  lemma Framed(a: string, b: string, c: string, d: string, e: string, f: string)
    ensures var r := a + b + c + d + e + f;
      && r[..|a|] == a
      && r[|r| - |f|..] == f
      && Contains(r, c + d)
  {
    var r := a + b + c + d + e + f;
    assert r[..|a|] == a;
    assert r[|r| - |f|..] == f;
    ContainsSelf(c + d);
    ContainsInConcat(a + b, c + d, e + f, c + d);
    assert r == (a + b) + (c + d) + (e + f);
  }

  lemma AppendAssoc(a: string, b: string, c: string)
    ensures (a + b) + c == a + (b + c)
  {
  }

  /** The examples of a prefix of the samples begin the examples of them all. */
  lemma {:induction false} ExamplesPrefix(samples: seq<Sample>, k: nat)
    requires k <= |samples|
    ensures Examples(samples[..k]) <= Examples(samples)
    decreases |samples|
  {
    if k < |samples| {
      var init := samples[..|samples| - 1];
      ExamplesPrefix(init, k);
      assert init[..k] == samples[..k];
    } else {
      assert samples[..k] == samples;
    }
  }

  lemma ExamplesStep(samples: seq<Sample>, i: nat)
    requires i < |samples|
    ensures Examples(samples[..i + 1]) == Examples(samples[..i]) + ExampleBlock(i + 1, samples[i].content)
  {
    var pre := samples[..i + 1];
    assert pre[..|pre| - 1] == samples[..i] && pre[|pre| - 1] == samples[i];
  }

  /** Sample i appears in the examples as "EXAMPLE i+1". */
  lemma ExampleIncluded(samples: seq<Sample>, i: nat)
    requires i < |samples|
    ensures Contains(Examples(samples), ExampleBlock(i + 1, samples[i].content))
  {
    ExamplesStep(samples, i);
    ExamplesPrefix(samples, i + 1);
    ContainsAfterPrefix(Examples(samples), Examples(samples[..i]), ExampleBlock(i + 1, samples[i].content));
  }

  lemma ContainsAfterPrefix(all: string, before: string, p: string)
    requires before + p <= all
    ensures Contains(all, p)
  {
    var rest := all[|before| + |p|..];
    assert all == before + p + rest;
    ContainsSelf(p);
    ContainsInConcat(before, p, rest, p);
  }

  /**
   * With samples the prompt shows the first SliceBound(numExamples, count) of
   * them in stored order, numbered from 1: for a non-negative numExamples that
   * is min(numExamples, count), and a negative one counts from the end as a
   * Python slice does.
   */
  lemma PromptShowsFirstSamples(samples: seq<Sample>, task: string, numExamples: int)
    requires samples != []
    ensures var shown := SliceBound(numExamples, |samples|);
      && (numExamples >= 0 ==> shown == if numExamples < |samples| then numExamples else |samples|)
      && StylePrompt(samples, task, numExamples) == Header + Examples(samples[..shown]) + TaskLead + task + "\n\n" + ResponseCue
      && forall i :: 0 <= i < shown ==> Contains(StylePrompt(samples, task, numExamples), ExampleBlock(i + 1, samples[i].content))
  {
    var shown := SliceBound(numExamples, |samples|);
    var examples := samples[..shown];
    var tail := TaskLead + task + "\n\n" + ResponseCue;
    assert SliceTo(samples, numExamples) == examples;
    Regroup(Header, Examples(examples), TaskLead, task, "\n\n", ResponseCue);
    forall i | 0 <= i < shown
      ensures Contains(Header + Examples(examples) + tail, ExampleBlock(i + 1, samples[i].content))
    {
      assert examples[i] == samples[i];
      ExampleIncluded(examples, i);
      ContainsInConcat(Header, Examples(examples), tail, ExampleBlock(i + 1, samples[i].content));
    }
  }

  /** the prompt generate_with_style sends: the style prompt and the word budget */
  function BudgetedPrompt(samples: seq<Sample>, task: string, maxWords: int): string {
    StylePrompt(samples, task, DefaultNumExamples) + "\n\nWrite approximately " + IntString(maxWords) + " words."
  }

  /**
   * analyze_style: `text.split('.')` gives one more piece than there are
   * full stops, so at least one; `text.split()` gives whitespace-free words
   * that together hold every non-whitespace character of the text.
   */
  function AnalyzeStyle(text: string): (r: StyleStats)
    ensures r.sentenceCount == CountChar(text, '.') + 1
    ensures r.sentenceCount >= 1
    ensures r.wordCount == |Words(text)| == WordStarts(text, true)
    ensures r.wordCount == 0 <==> forall i :: 0 <= i < |text| ==> IsSpace(text[i])
  {
    SplitCount(text, '.');
    WordsSpec(text);
    WordsCount(text);
    NoWordsIffAllSpace(text);
    StyleStats(|Words(text)|, |Split(text, '.')|)
  }

  lemma {:induction false} NoWordsIffAllSpace(s: string)
    ensures Words(s) == [] <==> forall i :: 0 <= i < |s| ==> IsSpace(s[i])
    decreases |s|
  {
    if s != [] {
      NoWordsIffAllSpace(s[1..]);
      if IsSpace(s[0]) {
        assert forall i :: 1 <= i < |s| ==> s[i] == s[1..][i - 1];
      }
    }
  }

  class StyleTrainer {
    var styleSamples: seq<Sample>

    constructor ()
      ensures styleSamples == []
    {
      styleSamples := [];
    }

    /**
     * load_writing_samples: nothing when the directory is missing; otherwise
     * the accepted files are appended after the samples already held, and the
     * result says whether any sample is held at all.
     */
    method LoadWritingSamples(dirExists: bool, files: seq<SampleFile>) returns (loaded: bool)
      modifies this
      ensures !dirExists ==> !loaded && styleSamples == old(styleSamples)
      ensures dirExists ==> styleSamples == old(styleSamples) + Accepted(files) && (loaded <==> styleSamples != [])
    {
      if !dirExists {
        return false;
      }
      for i := 0 to |files|
        invariant styleSamples == old(styleSamples) + Accepted(files[..i])
      {
        assert files[..i + 1][..i] == files[..i];
        var content := Strip(files[i].contents);
        if content != [] {
          styleSamples := styleSamples + [Sample(files[i].name, content)];
        }
      }
      assert files[..|files|] == files;
      loaded := |styleSamples| > 0;
    }

    /** create_style_prompt */
    method CreateStylePrompt(task: string, numExamples: int) returns (prompt: string)
      ensures prompt == StylePrompt(styleSamples, task, numExamples)
    {
      if styleSamples == [] {
        return task;
      }
      var examples := SliceTo(styleSamples, numExamples);
      prompt := Header;
      for i := 0 to |examples|
        invariant prompt == Header + Examples(examples[..i])
      {
        var block := ExampleBlock(i + 1, examples[i].content);
        ExamplesStep(examples, i);
        AppendAssoc(Header, Examples(examples[..i]), block);
        prompt := prompt + block;
      }
      assert examples[..|examples|] == examples;
      prompt := prompt + TaskLead + task + "\n\n";
      prompt := prompt + ResponseCue;
    }

    /**
     * generate_with_style: the budgeted prompt with three examples, top_p 0.9,
     * top_k 40 and num_predict twice the word budget; the answer text when
     * the service answers 200.
     */
    method GenerateWithStyle(model: string, task: string, temperature: real, maxWords: int, reply: Reply)
      returns (request: StyleRequest, response: Option<string>)
      ensures request.prompt == BudgetedPrompt(styleSamples, task, maxWords)
      ensures request == StyleRequest(model, request.prompt, false, temperature, 0.9, 40, 2 * maxWords)
      ensures response == ResponseText(reply)
    {
      var stylePrompt := CreateStylePrompt(task, DefaultNumExamples);
      stylePrompt := stylePrompt + "\n\nWrite approximately " + IntString(maxWords) + " words.";
      request := StyleRequest(model, stylePrompt, false, temperature, 0.9, 40, maxWords * 2);
      response := ResponseText(reply);
    }
  }
}
