# Prompt formatter of the URL question-answering worker

This is a Dafny model of the one piece of logic in this Cloudflare worker's sources that is not a
call to a third-party SDK: `formatContentQuery(content, question)` in `src/utils.ts`. It is an
exported helper for building a prompt that asks a question about some content. The worker code
beside it does not call it: `src/index.ts` does not import `src/utils.ts`, the helper is not an
operation of the worker, and `ask` sends its argument to the model as is. The helper is a total,
pure string function. It returns the fixed line `Given this content:` and a line
break, then the content, then a blank line, then `Answer this question: `, then the question.
Neither input is trimmed or escaped.

`content_query.dfy` declares one module, `ContentQuery`, which contains:

- `Prefix` (`"Given this content:\n"`, 20 characters) and `Separator`
  (`"\n\nAnswer this question: "`, 24 characters). These are the two fixed pieces of the template
  literal. The template literal's line breaks are line feeds, because ECMAScript normalises line
  terminators inside template literals.
- `FormatContentQuery`, the formatter itself. It has no precondition, so it is total for every
  pair of strings, empty ones included.
- `IsPromptFor`, an independent description of a prompt, index by index. It is proved equivalent
  to the formatter in both directions.
- `ContentOf` and `QuestionOf`, which recover one input when the other is known. They are proved
  to be inverses of the formatter, and that gives injectivity in each argument separately.
  `PairNotRecoverable` shows that the pair as a whole cannot be recovered.

A longer instruction block is sometimes described for this helper: cite sources, admit
unanswerable questions, order by relevance, and end with an "Answer:" cue. The code emits only
the short two-line template, and the model follows the code.

## Model

| member | source | states |
|---|---|---|
| ContentQuery.FormatMatchesShape | src/utils.ts:4-9 | a string is the formatter's output for (content, question) if and only if it holds the prefix at 0, the content at 20, the separator right after the content, and the question right after the separator up to the end, with length \|content\| + \|question\| + 44; so there is no trimming or escaping |
| ContentQuery.TemplateSizes | src/utils.ts:5-8 | the fixed prefix is 20 characters and the separator 24, together the 44-character overhead |
| ContentQuery.LengthOverhead | src/utils.ts:5-8 | the prompt's length is \|content\| + \|question\| + 44 for every input, a constant overhead |
| ContentQuery.StartsWithPrefix | src/utils.ts:5 | every prompt starts with `Given this content:` and a line feed, whatever the inputs |
| ContentQuery.ContentVerbatim | src/utils.ts:5-6 | the content occurs verbatim at index 20, right after the prefix |
| ContentQuery.QuestionIsSuffix | src/utils.ts:6-8 | the question is a suffix of the prompt with nothing after it, and everything before it is prefix, content and separator |
| ContentQuery.ContentBeforeQuestion | src/utils.ts:6-8 | the content's occurrence starts before the question's, and the text between the end of the content and the start of the question is exactly the blank line and `Answer this question: ` |
| ContentQuery.EmptyInputs | src/utils.ts:4-9 | empty content, empty question or both still give a prompt, and the template's wording is pinned literally: `("", "")` gives `Given this content:` followed by three line feeds and `Answer this question: `; an empty content puts the question right after those line feeds; an empty question leaves the cue with its trailing space at the end |
| ContentQuery.ContentOfFormat | src/utils.ts:5-8 | with the question known, the content is recovered from the prompt exactly |
| ContentQuery.ContentOf | src/utils.ts:5-8 | whatever content is recovered from a string for a given question, formatting it with that question rebuilds that string |
| ContentQuery.QuestionOfFormat | src/utils.ts:5-8 | with the content known, the question is recovered from the prompt exactly |
| ContentQuery.QuestionOf | src/utils.ts:5-8 | whatever question is recovered from a string for a given content, formatting it with that content rebuilds that string |
| ContentQuery.InjectiveInContent | src/utils.ts:5-8 | with the question fixed, two contents give the same prompt if and only if they are equal |
| ContentQuery.InjectiveInQuestion | src/utils.ts:5-8 | with the content fixed, two questions give the same prompt if and only if they are equal |
| ContentQuery.PairNotRecoverable | src/utils.ts:5-8 | the pair is not recoverable: content `a + separator + b` with question `c` and content `a` with question `b + separator + c` are different pairs with the same prompt |

## Left out

- `scrape` (src/index.ts:18-28) is left out. It is a network call through the Firecrawl SDK. Its only logic is the failure check and the empty-markdown fallback, and both depend on that SDK's response type.
- `ask` (src/index.ts:35-42) is left out. It is a network call through the Google GenAI SDK with a fixed model id. Its only logic is the empty-text fallback.
- `fetch`, the RPC proxy and the `Env` secrets (src/index.ts:6-10, 47-49) are left out. They are transport and authentication for the Workers runtime.
- Answer and content caching, related-page expansion, batch scraping and the mapping of errors to user-facing messages are sometimes described for this worker. None of them is in `src/index.ts` or `src/utils.ts`, so they are not part of this model.
- Lengths are counted in Dafny characters, not in JavaScript's UTF-16 code units. The prefix and separator are ASCII, so the 44-character overhead is the same under either count.
- JavaScript strings may hold unpaired UTF-16 surrogates, which a Dafny `string` cannot hold. Such inputs are outside the model, although the template literal concatenates them like any other code unit.
- A result longer than the JavaScript engine's maximum string length makes the template literal throw a `RangeError`. The model's strings are unbounded, so this failure is not modelled.
