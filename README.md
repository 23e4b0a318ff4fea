# SEO Agent wizard: verified model of its core

The application is a four-step Streamlit wizard that helps draft an SEO
article: (1) research the competition for a keyword on a search-results
provider, (2) collect the article parameters, (3) pick one of three outlines,
(4) draft the article with a language model. This project models the parts
of `app.py` that are logic rather than rendering or network calls:

- `Text` (`text.dfy`): Python's `str.strip()`, which guards steps 1 and 2, and
  the decimal rendering of an integer inside an f-string, which the first
  insight line uses.
- `Structures` (`structures.dfy`): `get_structure_options(kw)`, the three
  outlines with the keyword interpolated, and the `next(...)` lookup of the
  outline the user picked.
- `Competitors` (`competitors.dfy`): `analyze_competitors`. In demo mode
  (empty login or password) it returns fixed data. Otherwise it runs the loop
  that keeps the first three `organic` items, in input order, as competitor
  records with placeholder metrics, and adds three insight lines. The loop
  is a method (`SelectCompetitors`) proved equal to a specification function
  (`Selected`), and the lemmas about `Selected` state the filter's exactness,
  order, bound and the soundness of its early `break`.
- `Wizard` (`wizard.dfy`): a class `Session` whose fields are the six session
  keys (`step`, `keyword`, `competitor_data`, `inputs`, `selected_structure`,
  `final_md`), with one method per user action. `Valid()` is the invariant
  every reachable session keeps.
  - Step 1 needs a non-blank keyword and an analysis that does not raise.
  - Step 2 needs a non-blank title.
  - Step 3 needs an outline choice.
  - Step 4 offers "regenerate" (clears the draft) and "new project" (back to
    the defaults).

The provider calls are represented by their outcome (`FetchOutcome`): the
item list the polling produced, possibly empty after a timeout, together
with the raw response, or the exception that escaped. The language-model call
is represented the same way (`GenerationOutcome`). The credentials are
parameters of the `Session` constructor.

`app.py` does not rank results, does not fall back to non-organic items,
does not analyse page content and does not average metrics; neither does the
model.

## Model

| member | source | states |
|---|---|---|
| Text.TrimStart | app.py:257 | the result is the suffix of the input after its leading whitespace (Python `str.isspace` set), and starts with a non-space |
| Text.TrimEnd | app.py:257 | the result is the prefix of the input before its trailing whitespace, and ends with a non-space |
| Text.Trim | app.py:257 | `strip()`: the result is no longer than the input and neither starts nor ends with whitespace |
| Text.TrimIsTrimStartThenEnd | app.py:257 | `Trim` equals the two-pass reference: leading whitespace removed, then trailing whitespace |
| Text.TrimEmptyIffAllSpace | app.py:257 | the stripped keyword or title is empty exactly when every character is whitespace, in both directions |
| Text.TrimOfStripped | app.py:260 | a string with no surrounding whitespace is its own strip |
| Text.TrimIdempotent | app.py:260 | stripping twice equals stripping once |
| Text.NatToDecimal | app.py:167 | `f"{n}"` is a non-empty string of decimal digits without a leading zero |
| Text.DecimalRoundTrip | app.py:167 | reading the rendered digits back gives the number rendered |
| Text.NatToDecimalInjective | app.py:167 | different counts render as different strings |
| Structures.StructureOptions | app.py:39-80 | three options with ids 1, 2, 3 in that order, seven headers each, and the keyword occurring in each option's first header |
| Structures.StructureOptionsKeywordIndependent | app.py:39-80 | for any two keywords the ids, the names and every header other than those interpolating the keyword are the same |
| Structures.FirstWithId | app.py:332 | `next(...)` yields the first option of the list carrying the id (no earlier option carries it), and nothing exactly when no option carries the id |
| Structures.ChosenOption | app.py:326-332 | each radio choice 1 to 3 selects the option at that position of `get_structure_options` |
| Competitors.ToCompetitor | app.py:157-162 | the competitor record copies the item's `url` and `title` and carries the placeholder metrics: word count 2000, 8 headers |
| Competitors.OrganicItems | app.py:155-156 | the filter keeps only items whose `type` is `"organic"`, all taken from the input |
| Competitors.OrganicItemsAppend | app.py:155-156 | filtering a concatenation is concatenating the filtered parts |
| Competitors.OrganicItemAt | app.py:155-156 | every organic input item is kept, at the position given by the number of organic items before it, so input order is preserved |
| Competitors.NonOrganicIgnored | app.py:155-156 | a non-organic item changes the filter's output nowhere in the list |
| Competitors.Selected | app.py:154-164 | the real-path selection has min(3, number of organic items) entries |
| Competitors.SelectedFromOrganic | app.py:155-162 | the k-th selected competitor is the record of the k-th organic item, and each one comes from an organic input item |
| Competitors.NonOrganicNeverSelected | app.py:155-164 | inserting a non-organic item, with or without a url, never changes the selection |
| Competitors.SelectedIgnoresTail | app.py:163-164 | once three organic items have been seen, the items after them do not affect the selection, so the early `break` loses nothing |
| Competitors.SelectCompetitors | app.py:154-164 | the append-and-break loop computes exactly `Selected(items)` |
| Competitors.RealInsights | app.py:166-170 | three insight lines, the first being the label followed by the decimal count of all items returned |
| Competitors.DemoAnalysis | app.py:135-149 | demo result: three competitors `competitor1.com`, `competitor2.com`, `competitor3.com` with word counts 2500, 1800, 3200, titles containing the keyword, four insights, empty `serp_raw` |
| Competitors.DemoKeywordOnlyInTitles | app.py:135-149 | for any two keywords the demo results agree on the insights, `serp_raw`, urls, word counts and header counts, so the keyword only reaches the titles |
| Competitors.RealPathResult | app.py:150-171 | with credentials and fetched items: success, at most three competitors each with url and title from an organic item and metrics 2000 and 8, three insights whose first counts every item, and the raw response kept |
| Competitors.AnalysisResult | app.py:130-171 | `analyze_competitors` fails exactly when credentials are present and the provider call raised, with that exception's message, so demo mode never fails |
| Competitors.AnalysisBounded | app.py:135-171 | any successful result holds at most three competitors |
| Competitors.DemoIgnoresFetch | app.py:135-149 | without credentials the result never raises and does not depend on the provider |
| Competitors.AnalyzeCompetitors | app.py:130-171 | the method returns the demo data, the raised error, or the loop's selection with the insights and raw response, as `AnalysisResult` specifies |
| Wizard.Session.constructor | app.py:23-34 | a fresh session holds the defaults: step 1, empty keyword, no data, tone `profesional`, word count 1500, no outline, empty draft; it satisfies `Valid()` |
| Wizard.Session.Analyze | app.py:254-267 | blank keyword: nothing changes. Otherwise the stripped keyword is stored; on success the result is stored and step becomes 2, and on an exception step stays 1 and the data is unchanged; `Valid()` is kept |
| Wizard.Session.SubmitInputs | app.py:286-317 | the four inputs are stored as entered; step becomes 3 exactly when the stripped title is non-empty, otherwise stays 2; `Valid()` is kept |
| Wizard.Session.ChooseStructure | app.py:324-341 | the chosen outline (the option with that id) is stored, the draft is cleared, step becomes 4; `Valid()` is kept |
| Wizard.Session.Draft | app.py:346-361 | with no draft stored, a successful generation is stored and a failed one changes nothing; an existing draft is kept; nothing else changes |
| Wizard.Session.Regenerate | app.py:374-376 | only `final_md` is cleared |
| Wizard.Session.NewProject | app.py:378-382 | every key is back at its default (step 1, empty keyword, tone `profesional`, word count 1500, no data, no outline, empty draft) |

## Left out

- Task creation and polling (app.py:83-128): these are HTTP calls, `raise_for_status`, and a wall-clock timeout using `time.time()` and `time.sleep`. They are replaced by a `FetchOutcome` parameter: the item list (possibly empty after a timeout) with the raw response, or the exception that escaped. An `items` field that is `null` makes the loop raise `TypeError`; it is covered by that exception case.
- Credentials and authorization (app.py:16-18, 95-100, 113-116): secrets, environment lookups and base64 header construction are configuration I/O. The login and password are constructor parameters of `Session`.
- The credentials are read from the secrets and the environment (app.py:16-17) at the top of the script, so Streamlit reads them again on every run; the model fixes them for the lifetime of a `Session`, so a configuration change during a session is not modelled.
- The raw provider response is modelled as a map from top-level field names to their JSON text, not as a full JSON value.
- Items are records with optional string fields. A JSON `type` that is not a string is modelled as absent; either way it is not `"organic"`.
- `generate_content_with_openai` (app.py:174-228): a foreign API call plus prompt and demo-markdown templates. It is replaced by a `GenerationOutcome` parameter, so what the draft contains is not modelled.
- Streamlit rendering: page setup, progress metrics, the competitor and insight listings, the outline expander, the info line and the download button (app.py:9-11, 230-249, 269-279, 333-335, 363-372). This is display only.
- The tone and word-count selectors (app.py:301-310) appear only as the finite domains `ToneOptions` and `WordCountOptions`. The session keeps values inside them, so the `index(...)` lookup cannot raise.
- `st.rerun()` and the per-run re-creation of missing keys are not modelled as such. Each method is one complete user action. `NewProject` deletes the six keys and the next run re-creates them; the model sets their defaults directly.
- Wizard.Session.Analyze: requires step 1. The button only exists in step 1, so no other step can trigger it.
- Wizard.Session.SubmitInputs: requires step 2 and values from the two selectors. The form only exists in step 2, and the selectors offer no other values.
- Wizard.Session.ChooseStructure: requires step 3 and an id from 1 to 3, the ids the radio offers.
- Wizard.Session.Draft: requires step 4, the only step in which drafting runs. Regenerate and NewProject require step 4 for the same reason: their buttons only exist there.
