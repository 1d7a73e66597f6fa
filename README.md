# LinkedIn profile scraper and profile service — a Dafny model

The system scrapes a LinkedIn profile with a headless browser and serves the
result over HTTP. `LinkedInScraper` reads a profile page, and optionally its
posts, comments and reactions pages. It turns the texts it reads into records:
name, headline, About text, experience, education, publications, languages,
posts, comments and reactions. `run_and_save` merges the result into
`linkedin_profile_<id>.json`. The service in `main.py` does four things:
- it loads every such file into an in-memory store keyed by profile id;
- it lists and searches the store and returns one profile;
- it runs scrapes as background tasks;
- it tracks each task's status.

This model covers the deterministic rules behind the browser calls. What a
DOM query returns is an input of the model:
- section texts, list-item texts and spans;
- card trees holding comment elements and their link hrefs;
- the sequence of page heights the scroll loops measure;
- the directory's files, as a map from name to parsed object.

The model has one module per part of the program:

- `Strings`, `Lines`, `Sequences` and `Wrappers` hold the Python idioms the
  code repeats:
  - `strip`, `lower`, `in`, `split` on one character and `join`;
  - the comprehension that strips lines and drops blank ones;
  - the append-if-present loop (`Collect`);
  - `dict.fromkeys` deduplication (`Dedup`).
- `Records` and `Settings` hold the JSON records and the scraper's constants:
  - 30 scroll rounds;
  - 2 stagnant rounds for comments and 10 for the feeds;
  - 20 reaction cards.
- `Header`, `ExperienceSection`, `EducationSection`, `PublicationsSection`,
  `LanguagesSection`, `PostsSection`, `ReactionsSection` and
  `CommentsSection` each model one extractor.
  - Each pure rule on one item is a function.
  - Each loop over items is a method with loop invariants. Its result is
    proved equal to `Collect` of that function.
  - The comment filter, which runs as JavaScript inside the page, is modelled
    over cards, comment elements and the hrefs in each element's `li`.
- `Scrolling` models the scroll loops as state machines over a given sequence
  of heights:
  - the comments loop, bounded to 30 rounds and stopping after 2 stagnant
    rounds;
  - the feed loop of posts and full publications, which stops after 10
    stagnant rounds.
- `Identity` holds the URL and file-name rules:
  - the `/in/([^/]+)` slug search;
  - the profile id taken from the URL;
  - `linkedin_profile_<id>.json`;
  - `os.path.join` / `basename`;
  - `_slug_from_path`.
- `Orchestrator` models `extract_profile_data`, `run`, the shallow merge and
  `run_and_save`.
- `Service` models `main.py` as a class `ProfileService`:
  - Its fields are `_profiles` (a map plus its insertion order), `_tasks`, a
    ghost history of each task's statuses, and the directory's files.
  - The class invariant says three things:
    - every stored profile's `id` is its key;
    - every file name has no directory part;
    - every task has gone through a prefix of queued → running →
      completed | error, and its entry agrees with its status.

Behaviour of the code worth noting:

- `run` wraps all stages in one `try`. A stage that raises ends the run with
  what has been collected so far. In particular, a profile page that fails
  yields an empty result.
- The full publications list drops an item whose third non-empty line starts
  with `·`.
- The posts and full-publications scroll loops have no round bound. They stop
  only after 10 consecutive unchanged heights, and any change of height
  resets the count.

## Model

| member | source | states |
|---|---|---|
| Lines.Clean | linkedin_scraper.py:189 | stripping the tokens and dropping blank ones leaves no more tokens, each non-empty and already stripped |
| Lines.NonBlankLines | linkedin_scraper.py:128 | the lines of a text after strip and drop-blank are all non-empty and stripped |
| Lines.StripIdempotent | linkedin_scraper.py:189 | stripping a stripped token changes nothing |
| Lines.CleanIdempotent | linkedin_scraper.py:323 | cleaning an already clean token list gives it back unchanged |
| Lines.CleanAppend | linkedin_scraper.py:189 | cleaning distributes over concatenation, so tokens are cleaned one by one in order |
| Sequences.Dedup | linkedin_scraper.py:292 | `dict.fromkeys`: the result has the same elements as the input and no duplicates |
| Sequences.DedupOrder | linkedin_scraper.py:292 | the distinct lines keep the order of their first occurrences |
| Sequences.DedupPrefix | linkedin_scraper.py:292 | deduplicating a prefix gives a prefix of the deduplicated list |
| Header.SplitName | linkedin_scraper.py:109-110 | with no space in the full name, first name is the whole name and last name is empty; otherwise first + " " + last is the full name and the first name holds no space |
| Header.HeadingIsNotSkills | linkedin_scraper.py:133-137 | the `about` heading line never stops the About loop itself |
| Header.AboutText | linkedin_scraper.py:130-141 | the flag-and-break loop joins with spaces exactly the lines after the first `about` line and before the first line mentioning `skills` |
| Header.ExtractAbout | linkedin_scraper.py:120-144 | a missing About section gives ''; otherwise the About lines of its stripped non-blank lines, space-joined |
| ExperienceSection.ExperienceRoundTrip | linkedin_scraper.py:194-203 | title, company, date and location, read back in order, are a prefix of the tokens; the description joins the rest with spaces; the location is filled exactly when a fourth token exists without `·` or `yr` |
| ExperienceSection.ParseExperience | linkedin_scraper.py:191-203 | the pop(0) sequence yields the positional record, and no record for no tokens |
| ExperienceSection.ExtractExperience | linkedin_scraper.py:175-205 | items without the caption span or without non-blank text are skipped; the others' records are appended in item order |
| EducationSection.EducationRoundTrip | linkedin_scraper.py:328-339 | school, degree and date, read back in order, are the first tokens; `degree` exists exactly with a 2nd token and `date` with a 3rd; the description is the rest space-joined, '' when there are fewer than four |
| EducationSection.ParseEducation | linkedin_scraper.py:325-339 | the pop(0) sequence yields the record with optional keys, and no record for no tokens |
| EducationSection.ExtractEducation | linkedin_scraper.py:317-341 | items without non-blank text are skipped; the others' records are appended in item order |
| PublicationsSection.ExtractPublications | linkedin_scraper.py:216-227 | one record per item with a non-blank line, in order: title, then publisher and date when present |
| PublicationsSection.FullPublicationOf | linkedin_scraper.py:256-270 | an item is dropped exactly when it has no lines, its first line contains `More profiles` or its third line starts with `·`; a kept item's title is its first line, and a `·` line is never its publisher or date |
| PublicationsSection.DetailsAgreeWithProfile | linkedin_scraper.py:256-270 | for an ordinary publication the details page and the profile page yield the same record |
| PublicationsSection.ExtractFullPublications | linkedin_scraper.py:251-275 | a failed navigation gives []; otherwise the kept records in item order |
| PublicationsSection.FullPublicationsWellFormed | linkedin_scraper.py:253-270 | the list is no longer than the items; every kept title is non-empty and free of `More profiles`, and no publisher starts with `·` |
| LanguagesSection.LanguageIsFirstLine | linkedin_scraper.py:292-299 | the language is the first line; the proficiency is `Not specified` when every line repeats it |
| LanguagesSection.ProficiencyIsFirstOtherLine | linkedin_scraper.py:292-299 | the proficiency is the first line that differs from the language |
| LanguagesSection.RepeatedLanguageExample | linkedin_scraper.py:292-299 | `English, English, Native` gives English / Native |
| LanguagesSection.ExtractLanguages | linkedin_scraper.py:285-301 | elements without non-blank lines are skipped; the others' records are appended in order |
| PostsSection.StripAll | linkedin_scraper.py:373 | every text block is stripped, one for one |
| PostsSection.RepostRoundTrip | linkedin_scraper.py:369-373 | splitting `re_post` at newlines gives back the stripped reposted blocks when none spans several lines |
| PostsSection.ExtractPosts | linkedin_scraper.py:366-375 | cards without text blocks are skipped; the others' posts are appended in card order |
| ReactionsSection.LikedByIsFirstWord | linkedin_scraper.py:486-490 | with `likes this` or `celebrates this` in the actor line, `liked_by` is set and is the line's first word: no space in it, and the line is that word or starts with it and a space |
| ReactionsSection.NoLikedByWithoutAnnouncement | linkedin_scraper.py:487-490 | without a reaction phrase, `liked_by` is never set |
| ReactionsSection.ExtractReactions | linkedin_scraper.py:482-497 | only the first 20 cards are examined, their records appended in order, so there are never more than 20 |
| CommentsSection.ReadCard | linkedin_scraper.py:441-460 | one card yields its elements' records in element order |
| CommentsSection.ExtractComments | linkedin_scraper.py:440-461 | the records follow card order, then comment order |
| CommentsSection.CardCommentsMember | linkedin_scraper.py:446-459 | a record comes from a card exactly when one of its elements yields it |
| CommentsSection.CardsMember | linkedin_scraper.py:440-461 | a record is in the result exactly when some card yields it |
| CommentsSection.CommentsMember | linkedin_scraper.py:440-461 | a record is in the result exactly when some element of some card yields it |
| CommentsSection.CommentsAreOwnersAndTrimmed | linkedin_scraper.py:432-451 | every record comes from an element authored by the profile owner; its text is that element's text after JavaScript `trim()` and is non-empty |
| CommentsSection.LongerSlugAlsoMatches | linkedin_scraper.py:435-436 | the ownership test is a substring test, so a link to a profile whose slug extends the owner's also passes |
| CommentsSection.EmptySlugMatchesEveryProfileLink | linkedin_scraper.py:19 | with the empty slug of a URL without `/in/<slug>`, every profile link passes the ownership test |
| CommentsSection.OnlyLinkIsOther | linkedin_scraper.py:435-436 | `/in/john-smith/` is not a link to `jane-doe` |
| CommentsSection.OtherAuthorDropped | linkedin_scraper.py:447-448 | a comment whose `li` links only to another profile yields nothing |
| CommentsSection.OwnerCommentKept | linkedin_scraper.py:447-458 | the owner's comment is kept with the card's post text and author, and a null timestamp where the card has none |
| Strings.JsTrim | linkedin_scraper.py:450 | the trimmed text is empty exactly when the text is all JavaScript whitespace, and otherwise neither starts nor ends with it |
| Strings.JsTrimUnchanged | linkedin_scraper.py:455-457 | a text with no JavaScript whitespace at either end is its own trim |
| Strings.TrimsDiffer | linkedin_scraper.py:450 | JavaScript `trim()` keeps U+001C where Python `strip()` removes it |
| Scrolling.RunLengthSettled | linkedin_scraper.py:411-416 | the stagnation counter reaches the limit exactly when that many consecutive readings equal their predecessor |
| Scrolling.ScrollComments | linkedin_scraper.py:394-420 | between 2 and 30 rounds; the loop stops early exactly at the first round ending two stagnant readings, and otherwise runs all 30 |
| Scrolling.ScrollFeed | linkedin_scraper.py:240-250 | the loop stops at the first round that ends 10 consecutive unchanged readings; when the readings run out, no round did |
| Scrolling.GrowThenStallExample | linkedin_scraper.py:394-420 | heights 100, 200, 200, 200 stop the comments loop after round 4 and not before |
| Identity.FirstSlugStart | linkedin_scraper.py:18 | the leftmost position at or after a point where `/in/` is followed by a character other than `/`, or none |
| Identity.SlugAt | linkedin_scraper.py:18-19 | the group is non-empty, holds no `/`, and runs to the next `/` or to the end |
| Identity.UserSlug | linkedin_scraper.py:18-19 | the slug holds no `/`, and it is empty exactly when the pattern does not match |
| Identity.UserSlugOfProfileUrl | linkedin_scraper.py:18-19 | for `<host>/in/<slug>/<rest>` the slug is found |
| Identity.ProfileId | main.py:122 | the profile id contains neither `/` nor `?` |
| Identity.ProfileIdOfUrl | main.py:129 | the id of `<base>/<id>` with or without a trailing slash is `<id>` |
| Identity.ProfileIdWithQueryAfterSlash | main.py:122 | a query after a trailing slash leaves an empty id |
| Identity.JaneDoeProfileId | main.py:122 | `https://www.linkedin.com/in/jane-doe/` gives `jane-doe` |
| Identity.Basename | main.py:26 | the base name is no longer than the path and holds no `/` |
| Identity.PrefixSuffixApart | main.py:27-28 | a name with the file prefix and suffix is long enough for both |
| Identity.SlugFromPath | main.py:24-29 | a profile-file name gives the id it was built from; any other base name is returned unchanged |
| Identity.BasenameOfJoin | main.py:141 | the base name of a file joined to the directory is the file name |
| Identity.SlugFromFileRoundTrip | main.py:24-29 | for an id without `/`, the path of its profile file gives the id back |
| Identity.SlugFromOtherFile | main.py:27-29 | a file without the prefix or the suffix gives its base name |
| Orchestrator.ExtractProfileData | linkedin_scraper.py:97-159 | no record when the name or headline cannot be read; otherwise exactly the ten keys, each from its rule: split name, "Not specified" defaults, About text, the four section lists |
| Orchestrator.Merge | linkedin_scraper.py:524 | every scraped key takes the scraped value, every other stored key keeps its value, and no other key appears |
| Orchestrator.MergeIdempotent | linkedin_scraper.py:523-524 | merging the same result twice changes nothing more |
| Orchestrator.Run | linkedin_scraper.py:50-95 | profile keys come from the profile stage; full publications replace the profile list only when non-empty; each activity key is added only when its flag is set, no earlier stage raised, and its list is non-empty |
| Orchestrator.RunAndSave | linkedin_scraper.py:502-526 | an unreadable stored file fails; an empty result writes nothing; otherwise the file holds the merge and no other file changes |
| Service.StoredSlugNamesFile | main.py:35-41 | the key a profile file is loaded under names that same file |
| Service.ProfileFileNameShape | main.py:141 | the file written for a profile id is a profile file without a directory part |
| Service.LoadSkip | main.py:36-44 | taking a file that is not a valid JSON object leaves the store unchanged and keeps it consistent with the files taken so far |
| Service.LoadStep | main.py:36-41 | loading one readable profile file stores its object under the id its name carries with `id` set, and keeps the store consistent with the files taken so far |
| Service.LoadDone | main.py:34-44 | once every profile file is taken, the store is valid and holds exactly the readable profile files |
| Service.LoadedFile | main.py:139-151 | after a reload, the profile file written for an id is stored under that id |
| Service.SearchMember | main.py:90-101 | a summary is in the results exactly when it summarises a stored profile whose search text contains the lower-cased query |
| Service.EmptyQueryListsAll | main.py:90-101 | the empty query returns the whole list |
| Service.SearchIgnoresCase | main.py:90-94 | queries differing only in case give the same results |
| Service.ProfileService.constructor | main.py:20-21 | the store and the task table start empty |
| Service.ProfileService.LoadProfiles | main.py:32-44 | the store is cleared, then holds exactly the readable profile files, each under the id its name carries, with `id` set to that key; tasks and files are unchanged |
| Service.ProfileService.ListProfiles | main.py:75-83 | one summary per stored profile, and a summary is listed exactly when it summarises a stored profile |
| Service.ProfileService.SearchProfiles | main.py:88-101 | the loop returns the matching summaries in store order |
| Service.ProfileService.GetProfile | main.py:104-109 | 404 exactly when the id is not stored; otherwise the stored object |
| Service.ProfileService.GetTaskStatus | main.py:157-162 | 404 exactly when the task id is unknown; otherwise its entry |
| Service.ProfileService.ScrapeProfile | main.py:115-123 | a fresh task is added as queued, nothing else changes, and the answer carries the URL's profile id |
| Service.ProfileService.SetTask | main.py:130 | the entry is replaced and the task's history grows by exactly the new status, keeping it a lifecycle prefix; no other task, profile or file changes |
| Service.ProfileService.Finish | main.py:151-154 | a running task ends completed or in error: its entry is replaced and its history becomes queued, running, that status; nothing else changes |
| Service.ProfileService.SaveMerged | main.py:139-148 | a stored file that is not valid JSON fails and writes nothing; otherwise the profile file holds the stored object (`{}` when absent) updated with the scraped keys |
| Service.ProfileService.RunScraperTask | main.py:126-154 | only this task changes; it goes queued → running with its profile id → error (with the message) or completed; on completion the file holds the merge when the result was non-empty, the store is reloaded from the files and holds the merged profile under its id |

## Left out

- Browser work is not modelled: launching Chromium, cookies, navigation,
  waits, clicks, locators and `page.evaluate`. Which DOM nodes a selector or
  `closest("li")` matches is an input: section texts, item texts, spans,
  cards, comment elements with the hrefs of their `li`, and page heights.
- `scroll_delay`, `wait_for_timeout` and the "Show more" clicks are left out.
  They only affect timing.
- The scroll loops are not coupled to which cards are loaded afterwards. The
  extractors receive the final card list as an input.
- Scrolling.ScrollFeed: the source loop has no round bound and would spin
  forever on a page that keeps changing height. The model reads a finite
  sequence of heights and reports `OutOfReadings` when it is exhausted.
- Scrolling.ScrollComments: requires at least 30 height readings, one per
  possible round.
- Exceptions raised inside a section extractor are not modelled. The
  full-publications extractor returns an empty list from its handler
  (linkedin_scraper.py:273-275); the others return what they collected
  before the exception. A missing section appears as an empty item list. The profile-page and navigation
  exceptions that `run` sees are modelled as `None` inputs.
- The full `str.strip` and `str.lower` Unicode behaviour is left out.
  Whitespace is the ASCII characters `str.isspace` accepts, and case folding
  is ASCII only.
- The comment extractor's script trims with JavaScript `trim()`, which is a
  different set from Python's: `Strings.JsTrim` removes the ECMAScript
  whitespace and line terminators and keeps U+001C to U+001F, which
  `Strings.Strip` removes (`Strings.TrimsDiffer`).
- JSON encoding and decoding is left out. A file is either a parsed object or
  `Corrupt`. A JSON file whose top level is not an object is treated as
  corrupt.
- Service.ProfileService.ListProfiles: the `id` of each summary is the store
  key. The class invariant proves that the stored `id` field equals this key.
- Service.SearchText: the fields `first_name`, `last_name` and `headline` take
  part only when they are non-empty strings. A non-string JSON value in those
  fields, on which the source would raise, is skipped.
- Pydantic request and response validation and FastAPI routing are left out.
  `uuid4` is replaced by a task id given as input and required to be fresh.
- `BackgroundTasks`, async scheduling and concurrent tasks writing the same
  file are left out. Each task runs to completion on its own.
- `glob` order is not fixed by the model. `LoadProfiles` loads the files in
  any order. The stored profiles do not depend on that order. The store
  order, and so the order of list and search results, is the order the files
  were read, which the model leaves open.
- Service.ProfileService.RunScraperTask: the scraper's result and the message
  of the exception the scraper raised, if any, are inputs. That exception is
  one raised by `LinkedInScraper.run` outside its own `try` or by
  `close_browser`. Launching Chromium from the fixed executable path, or
  opening the page, can raise in `run` (linkedin_scraper.py:37,
  linkedin_scraper.py:51-52). The other error modelled is a stored file that
  is not valid JSON. The text of the exception message for an unreadable file
  is a fixed placeholder. Failures to write the file are not modelled.
- Orchestrator.RunAndSave does not model `run` or `close_browser` raising.
  Such an exception escapes `run_and_save` after `close_browser`, and nothing
  is written. The model has no input for it.
- The command-line entry point, `argparse` and logging are left out.
