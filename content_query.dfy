/**
 * A prompt-building helper exported by the URL question-answering worker's
 * utilities. The worker code beside it does not call it: its `ask` operation
 * sends its argument to the language model as is.
 *
 * `FormatContentQuery` wraps page content and a question in a fixed
 * two-part template: a prefix line, the content, a blank line, and an
 * "Answer this question: " cue followed by the question. Neither input is
 * trimmed, escaped or otherwise changed.
 *
 * Strings are sequences of characters. The two fixed pieces of the template
 * are plain ASCII, so their lengths are the same whether characters or UTF-16
 * code units are counted.
 */
module ContentQuery {

  datatype Option<T> = None | Some(value: T)

  /** The fixed text that opens every prompt (20 characters). */
  const Prefix: string := "Given this content:\n"

  /** The fixed text between the content and the question (24 characters):
      the line break ending the content, an empty line, and the cue. */
  const Separator: string := "\n\nAnswer this question: "

  /** Characters the template adds around its two inputs. */
  const Overhead: nat := 44

  /** Builds a prompt for asking a question about content. Total: every pair of
      strings, empty ones included, yields a prompt. */
  function FormatContentQuery(content: string, question: string): string
  {
    Prefix + content + Separator + question
  }

  // ---------------------------------------------------------------------
  // An independent, index-wise description of a prompt
  // ---------------------------------------------------------------------

  /** `pat` occurs in `s` starting at index `i`. */
  predicate OccursAt(pat: string, s: string, i: int)
  {
    0 <= i && i + |pat| <= |s| && s[i..i + |pat|] == pat
  }

  /** `prompt` consists of the prefix at 0, `content` at 20, the separator
      right after the content, and `question` right after the separator,
      running to the very end. */
  predicate IsPromptFor(prompt: string, content: string, question: string)
  {
    && |prompt| == |content| + |question| + Overhead
    && OccursAt(Prefix, prompt, 0)
    && OccursAt(content, prompt, |Prefix|)
    && OccursAt(Separator, prompt, |Prefix| + |content|)
    && OccursAt(question, prompt, |Prefix| + |content| + |Separator|)
  }

  lemma TemplateSizes()
    ensures |Prefix| == 20 && |Separator| == 24
    ensures |Prefix| + |Separator| == Overhead
  {
  }

  /** The formatter's output is exactly the prompt described index by index,
      and nothing else is: the two descriptions agree on every string. */
  lemma FormatMatchesShape(prompt: string, content: string, question: string)
    ensures prompt == FormatContentQuery(content, question) <==> IsPromptFor(prompt, content, question)
  {
  }

  // ---------------------------------------------------------------------
  // Properties of the output
  // ---------------------------------------------------------------------

  /** The prompt is always `Overhead` (44) characters longer than its two
      inputs together. */
  lemma LengthOverhead(content: string, question: string)
    ensures |FormatContentQuery(content, question)| == |content| + |question| + Overhead
  {
  }

  /** Every prompt starts with the fixed prefix, whatever the inputs. */
  lemma StartsWithPrefix(content: string, question: string)
    ensures Prefix <= FormatContentQuery(content, question)
    ensures FormatContentQuery(content, question)[..20] == "Given this content:\n"
  {
  }

  /** The content appears verbatim at index 20, right after the prefix. */
  lemma ContentVerbatim(content: string, question: string)
    ensures OccursAt(content, FormatContentQuery(content, question), 20)
  {
  }

  /** The question appears verbatim as a suffix: nothing follows it, and what
      precedes it is the prefix, the content and the separator. */
  lemma QuestionIsSuffix(content: string, question: string)
    ensures var p := FormatContentQuery(content, question);
      && |question| <= |p|
      && p[|p| - |question|..] == question
      && p[..|p| - |question|] == Prefix + content + Separator
  {
  }

  /** The content comes before the question, and exactly the separator lies
      between the end of the content and the start of the question. */
  lemma ContentBeforeQuestion(content: string, question: string)
    ensures var p := FormatContentQuery(content, question);
      var questionStart := 20 + |content| + 24;
      && OccursAt(content, p, 20)
      && OccursAt(question, p, questionStart)
      && 20 < questionStart
      && p[20 + |content|..questionStart] == "\n\nAnswer this question: "
  {
  }

  /** Empty inputs are handled like any other, and the template's exact
      wording is pinned: with empty content the question follows the three
      line feeds directly; with an empty question the prompt ends with the
      cue and its trailing space. */
  lemma EmptyInputs()
    ensures FormatContentQuery("", "") == "Given this content:\n\n\nAnswer this question: "
    ensures forall q :: FormatContentQuery("", q) == "Given this content:\n\n\nAnswer this question: " + q
    ensures forall c :: FormatContentQuery(c, "") == "Given this content:\n" + c + "\n\nAnswer this question: "
  {
  }

  // ---------------------------------------------------------------------
  // Recovering one input when the other is known
  // ---------------------------------------------------------------------

  /** The content of `prompt`, given the question it was built with, or None
      when `prompt` is not a prompt for that question. */
  function ContentOf(prompt: string, question: string): (r: Option<string>)
    ensures r.Some? ==> FormatContentQuery(r.value, question) == prompt
  {
    var cEnd := |prompt| - |question| - |Separator|;
    if |prompt| >= |question| + Overhead
       && prompt[..|Prefix|] == Prefix
       && prompt[cEnd..] == Separator + question
    then Some(prompt[|Prefix|..cEnd])
    else None
  }

  /** The question of `prompt`, given the content it was built with, or None
      when `prompt` is not a prompt for that content. */
  function QuestionOf(prompt: string, content: string): (r: Option<string>)
    ensures r.Some? ==> FormatContentQuery(content, r.value) == prompt
  {
    var qStart := |Prefix| + |content| + |Separator|;
    if |prompt| >= |content| + Overhead
       && prompt[..qStart] == Prefix + content + Separator
    then Some(prompt[qStart..])
    else None
  }

  /** `ContentOf` inverts the formatter with the question held fixed. */
  lemma {:induction false} ContentOfFormat(content: string, question: string)
    ensures ContentOf(FormatContentQuery(content, question), question) == Some(content)
  {
    TemplateSizes();
    var p := FormatContentQuery(content, question);
    var cEnd := |p| - |question| - |Separator|;
    assert p == (Prefix + content) + (Separator + question);
    assert p[..|Prefix|] == Prefix;
    assert p[cEnd..] == Separator + question;
    assert p[|Prefix|..cEnd] == content;
  }

  /** `QuestionOf` inverts the formatter with the content held fixed. */
  lemma QuestionOfFormat(content: string, question: string)
    ensures QuestionOf(FormatContentQuery(content, question), content) == Some(question)
  {
  }

  /** With the question fixed, different contents give different prompts. */
  lemma {:induction false} InjectiveInContent(c1: string, c2: string, question: string)
    ensures FormatContentQuery(c1, question) == FormatContentQuery(c2, question) <==> c1 == c2
  {
    ContentOfFormat(c1, question);
    ContentOfFormat(c2, question);
  }

  /** With the content fixed, different questions give different prompts. */
  lemma {:induction false} InjectiveInQuestion(content: string, q1: string, q2: string)
    ensures FormatContentQuery(content, q1) == FormatContentQuery(content, q2) <==> q1 == q2
  {
    QuestionOfFormat(content, q1);
    QuestionOfFormat(content, q2);
  }

  /** The pair is not recoverable from the prompt: when the content itself
      contains the separator, moving the text after it into the question
      gives a different pair with the same prompt. */
  lemma PairNotRecoverable(a: string, b: string, c: string)
    ensures a + Separator + b != a
    ensures FormatContentQuery(a + Separator + b, c) == FormatContentQuery(a, b + Separator + c)
  {
  }
}
