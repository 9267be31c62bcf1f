# poe-com-scraper core, modelled in Dafny

This project models the core of the Poe.com conversation scraper:

- **`PoeScraper`** fetches the index page, parses each `div.conversation-item` into a descriptor, and cuts the list to the effective limit. It then walks the descriptors in order while its running flag stays set. For each one it fetches and parses the detail page into a `Conversation` record and skips the items that fail. `get_stats` summarises the stored records.
- **The utilities** are:
  - the `retry_on_failure` decorator, with its exponential backoff;
  - the `rate_limiter` decorator, with its two-second spacing;
  - `ProgressTracker`;
  - `sanitize_filename`.
- **`Config`** holds four sections of dataclass defaults. `load_from_file` merges the known keys of a JSON document, section by section. `validate` lists the failed checks, and `to_dict` serialises the settings.

Modules follow the source files:

- `Scraper` (`scraper.dfy`) models `src/scraper.py`.
- `Utils` (`utils.dfy`) models `src/utils.py`.
- `ConfigModel` (`config.dfy`) models `src/config.py`.
- Three support modules hold shared definitions:
  - `Wrappers`: the `Option` and `Result` types.
  - `Json`: parsed JSON values, Python truthiness, and a value's number when a comparison with 0 accepts it.
  - `Subsequences`: the positions of the set flags, and order-preserving selection.

Each file is modelled in the form its code takes:

- The stateful objects are classes whose methods change their fields:
  - `PoeScraper`, with `conversations` and `isRunning`;
  - `Config`, with its four sections;
  - `ProgressTracker`;
  - `RateLimiter`, the decorator's `last_call_time` closure variable.
- The source's loops are `while`/`for` loops, each proved against a specification function:
  - parsing the index and the messages;
  - the scrape loop;
  - the stats loop;
  - the retry loop;
  - the callback loop;
  - the replace loop in `sanitize_filename`;
  - the key-merge loop in `load_from_file`.
- Everything else is functions and lemmas.

The environment becomes parameters:

- **Network and HTML.**
  - The index page is the list of element records that the selectors would find. It is `None` when fetching it raised.
  - Fetching the detail page of item `i` is an oracle `fetch(i, url)`. It returns `None` when fetching or parsing raised.
  - A transport attempt is a function from the attempt number to a `Result`.
  - A config file is either unreadable or a parsed JSON value.
- **Clocks.**
  - Limiter times are integer milliseconds.
  - The limiter's second `time.time()` reading is the end of the sleep plus an `overshoot`. The overshoot is any integer, because the wall clock can step back and a timer can fire early.
  - The `time.strftime` stamp is a single string parameter.
- **The thread that calls `stop_scraping`.** It is the loop boundary `stopAt` at which the cleared flag is first seen.

## Model

| member | source | states |
|---|---|---|
| Scraper.ParseConversationList | src/scraper.py:87-109 | The loop's result is exactly the list-parse specification `ParsedList`. |
| Scraper.ParseElement | src/scraper.py:97-107 | One element, by the order in which the dict literal looks its pieces up: <br>• it aborts the parse iff the title and bot name are present and the `<a>` is missing; <br>• it is kept iff the title, bot name, `<a>` with its `href`, and preview are all present; <br>• a kept descriptor has the element's id (or the empty string) and the `href` as URL. |
| Scraper.ParsedListRaisesIff | src/scraper.py:96-107 | Parsing the list raises iff some element has a title and a bot name but no `<a>`. `None['href']` is a TypeError, which the `(AttributeError, KeyError)` handler does not catch. |
| Scraper.FailurePersists | src/scraper.py:96-107 | Once a prefix of the elements raises, the whole list raises with the same TypeError. No later element can undo it. |
| Scraper.ParsedListError | src/scraper.py:96-107 | The only error the list parse can raise is the missing-anchor TypeError. |
| Scraper.ParsedListKeepsOrder | src/scraper.py:96-109 | A successful parse is exactly the kept elements' descriptors, in element order. Elements missing the title, bot name, href or preview are skipped. The result is no longer than the element list. |
| Scraper.ParsedMessagesKeepOrder | src/scraper.py:123-137 | The messages are those of the elements with a `message-content` div, in order. The others are skipped. The role is `user` iff `user-message` is among the classes. Timestamp and id default to the empty string. |
| Scraper.ParseMessages | src/scraper.py:123-137 | The message loop's result is exactly `ParsedMessages` of the elements. |
| Scraper.ParseConversationDetail | src/scraper.py:111-153 | The record has the given id. Its title is the stripped h1 text or `Conversation <id>`. Its bot is the stripped indicator or `Unknown`. Its `message_count` is the number of parsed messages, at most the number of message elements. Its URL is `https://poe.com/chat/<id>`. |
| Scraper.EffectiveLimit | src/scraper.py:158 | `max_conversations or config`: a nonzero argument is used and is truthy. `None` or 0 falls back to the configured value. |
| Scraper.PrefixSlice | src/scraper.py:170 | Python's `s[:n]` is a prefix of s. Its length is min(n, len) for n ≥ 0, and max(len + n, 0) for negative n. |
| Scraper.LimitLinks | src/scraper.py:169-170 | The cut: <br>• a falsy limit keeps every link; <br>• a successful cut is a prefix; <br>• it raises a TypeError iff the limit is truthy and is not a number, or is a float below the length, which is not a valid slice bound; <br>• `True` below the length keeps one link. |
| Scraper.PlanLimits | src/scraper.py:158-170 | Limit fallback, cases: <br>• An argument of `None` or 0 falls back to the configured limit. <br>• A positive limit n keeps the first min(n, len) descriptors. <br>• A falsy limit keeps them all. <br>Any successful cut is a prefix of the parsed list. |
| Scraper.DefaultLimitIsHundred | src/config.py:25 | With the default configuration and no argument, the first min(100, len) descriptors are walked. |
| Scraper.Processed | src/scraper.py:173-176 | The loop handles the descriptors before the boundary at which the cleared flag is seen, and all of them when it is never seen. |
| Scraper.CollectedIsSubsequence | src/scraper.py:172-188 | The records are an order-preserving subsequence of the descriptors. Record m is the parse of the m-th descriptor whose fetch succeeded and carries that descriptor's id. Every succeeded descriptor is kept and every failed one is skipped. |
| Scraper.NothingCollectedWhenAllFail | src/scraper.py:185-187 | When every detail fetch fails the run still succeeds, with no records. |
| Scraper.Fetched | src/scraper.py:181 | Each handled descriptor's URL is fetched once, in order. |
| Scraper.PoeScraper.constructor | src/scraper.py:30-35 | The configuration is built from the given file. There are no conversations and the scraper is not running. |
| Scraper.PoeScraper.StopScraping | src/scraper.py:199-202 | Clears the running flag and nothing else. |
| Scraper.PoeScraper.ScrapeConversations | src/scraper.py:155-197 | Outcome, by case: <br>• A raise (failed index fetch, missing anchor, or a limit that cannot be compared or sliced with) is returned. The stored list is unchanged and no detail page is fetched. <br>• Otherwise the stored and returned list is `Collected` of the descriptors handled before the stop, and exactly their URLs were fetched. <br>The flag is cleared in every case. |
| Scraper.PoeScraper.PlanLinks | src/scraper.py:158-170 | The steps before the loop produce exactly `Plan`: the effective limit, the index fetch, the list parse and the cut. |
| Scraper.PoeScraper.ScrapeOne | src/scraper.py:178-187 | The `try` block yields the parsed record of the fetched page, or nothing when the fetch failed. |
| Scraper.PoeScraper.GetStats | src/scraper.py:209-227 | Returns nothing iff there are no conversations. Otherwise it returns: <br>• the number of conversations; <br>• the message total; <br>• the average; <br>• the per-bot counts; <br>• the bot names in the dict's key order, which is first-occurrence order; <br>• the time stamp. |
| Scraper.BotOrderKeys | src/scraper.py:215-219 | The key order lists every key of the distribution exactly once, and nothing else. |
| Scraper.BotOrderFirstOccurrence | src/scraper.py:215-219 | Bot a comes before bot b in the key order iff a's first conversation comes before b's. |
| Scraper.BotCountsKeys | src/scraper.py:215-219 | The distribution's keys are exactly the bot names present. |
| Scraper.BotCountsCount | src/scraper.py:215-219 | Each count equals the number of conversations with that bot, and is positive. |
| Scraper.BotCountsSum | src/scraper.py:215-222 | The counts add up to `total_conversations`. |
| Scraper.FetchPage | src/scraper.py:72-85 | `fetch_page`: <br>• one limiter grant, spaced at least `min_interval` plus the overshoot after the previous one; <br>• then at most four transport attempts; <br>• a value only from the attempt that succeeded; <br>• after four failures, waits of 1, 2 and 4 seconds, and the fourth attempt's error is the one raised. |
| Utils.RetryOnFailure | src/utils.py:33-56 | Retry loop: <br>• At most max_retries+1 attempts, and every attempt before the last one failed. <br>• A value is returned only from a succeeding attempt. <br>• The last exception is raised after max_retries+1 failures. <br>• `raise None` happens iff max_retries < 0. <br>• The waits are delay·backoff^k for the retries made. |
| Utils.BackoffSchedule | src/utils.py:49 | The wait before retry k is delay·backoff^k. |
| Utils.BackoffTotal | src/utils.py:40-51 | The waits add up to the geometric sum: total·(backoff−1) = delay·(backoff^n − 1). |
| Utils.DefaultBackoffSchedule | src/utils.py:33 | With the decorator's defaults the waits are 1, 2 and 4 seconds, 7 in all. |
| Utils.SleepBefore | src/utils.py:21-26 | There is no sleep once `min_interval` has passed. Otherwise the sleep is exactly the rest of the interval. |
| Utils.RateLimiter.constructor | src/utils.py:12 | `last_call_time` starts at 0. |
| Utils.RateLimiter.Acquire | src/utils.py:18-28 | Sleeps `SleepBefore(now − last)` and records the clock reading taken after the sleep. That reading is at least `min_interval` plus the overshoot after the previous grant. The overshoot is negative when the clock stepped back or the timer fired early. |
| Utils.GrantsSpaced | src/utils.py:12-31 | Over any sequence of calls through one limiter, consecutive grants are at least `min_interval` plus the later call's overshoot apart. |
| Utils.Advance | src/utils.py:74-77 | The new `current` is current+increment, clamped to total. |
| Utils.Percentage | src/utils.py:80 | The percentage is 0 when total ≤ 0 and 100 when complete. It lies in 0..100 when 0 ≤ current ≤ total. |
| Utils.UnitUpdatesReachTotal | src/utils.py:72-103 | From 0, n calls of `update(1)` leave min(n, total). After total of them the tracker is complete, at 100 %. |
| Utils.ProgressTracker.constructor | src/utils.py:61-66 | Starts at 0 with no callbacks. It is complete at once iff total ≤ 0. |
| Utils.ProgressTracker.AddCallback | src/utils.py:68-70 | Appends the callback and changes nothing else. |
| Utils.ProgressTracker.Update | src/utils.py:72-94 | Clamps `current` to total. Every registered callback is called once, in order, with the new current, the total and the percentage, whether or not earlier ones raised. |
| Utils.ProgressTracker.IsComplete | src/utils.py:101-103 | Complete means `current >= total`. When complete with 0 < total and current ≤ total, the percentage is 100. When not complete and current ≥ 0, it is below 100. |
| Utils.ProgressTracker.Reset | src/utils.py:96-99 | `current` is 0 again, the start time is renewed and the callbacks are kept. |
| Utils.StripSlice | src/utils.py:113 | `str.strip(chars)` keeps the slice between the maximal leading run and the maximal trailing run of stripped characters. Everything removed is a stripped character, and the slice neither begins nor ends with one. |
| Utils.SanitizeFilename | src/utils.py:105-119 | The replace loop, strip and cut compute exactly `SanitizedName`. |
| Utils.SanitizedNameSlice | src/utils.py:108-119 | The result is the slice of the input, with invalid characters replaced by `_`, that starts where the leading dots and spaces end. It is at most 200 characters long. It begins with neither a dot nor a space, and ends with neither unless the cut exposed one. |
| Utils.SanitizedNameSafe | src/utils.py:105-119 | Result properties: <br>• no invalid character; <br>• at most 200 characters, and no longer than the input; <br>• no leading dot or space; <br>• no trailing one unless the cut exposed it. |
| Utils.SanitizedNameNotIdempotent | src/utils.py:113-117 | 199 `a`s followed by `.b` sanitises to a name ending in `.`, and sanitising that once more changes it. |
| Utils.SanitizedNameFixedSafe | src/utils.py:105-119 | With the trailing strip applied after the cut as well, the result never begins or ends with a dot or space. Sanitising it again changes nothing. |
| ConfigModel.Validate | src/config.py:116-141 | A successful `validate` returns at most six messages, each one of the six check messages. |
| ConfigModel.ValidateRaisesIff | src/config.py:116-141 | `validate` raises a TypeError iff one of the four settings it compares with 0 is not a number. |
| ConfigModel.ValidateSelectsFailedChecks | src/config.py:116-141 | The error list is the messages of the failed checks, selected in check order. |
| ConfigModel.ValidateReportsEachFailedCheck | src/config.py:116-141 | Each of the six messages is reported iff its check fails. Messages appear in check order, each at most once. |
| ConfigModel.ValidateEmptyIff | src/config.py:116-141 | The list is empty iff all six checks pass. |
| ConfigModel.FormatAcceptedIff | src/config.py:131-132 | The format is accepted iff it is the string `json`, `csv` or `xlsx`. |
| ConfigModel.DefaultsValidate | src/config.py:7-38 | The dataclass defaults validate with no errors. |
| ConfigModel.ToDict | src/config.py:107-114 | `to_dict` has exactly the four section names, each mapped to its section. |
| ConfigModel.LoadStopsAtFirstRaise | src/config.py:54-86 | A load succeeds iff no section lookup raises. Every section before the first raising one is merged. That section and all later ones keep their values, with no rollback, because `load_defaults` does nothing. |
| ConfigModel.LoadKeepsKeys | src/config.py:61-82 | A load never adds or removes a setting: `hasattr` admits only known keys. |
| ConfigModel.AbsentSectionUnchanged | src/config.py:61-82 | A section missing from the file, or listing only unknown keys, keeps its prior values. |
| ConfigModel.SaveThenLoad | src/config.py:54-105 | Loading the document `save_to_file` writes gives back the same settings, without error. |
| ConfigModel.SectionLookup | src/config.py:61-82 | `name in config_data`, then `config_data[name].items()`. The section's entries are merged iff the document is a dict holding a dict under that name. A dict without the name leaves the section alone. A list raises iff it holds the name as a string, because indexing a list with a string is a TypeError. Any other document except a string raises. |
| ConfigModel.MergeSection | src/config.py:62-64 | `hasattr`/`setattr`: the key set is kept. Known keys present in the entries take the file's value, and the rest keep their old value. |
| ConfigModel.MergeKnownKeys | src/config.py:62-64 | The per-section loop overwrites exactly the known keys with the file's values and keeps the key set. |
| ConfigModel.Config.constructor | src/config.py:43-52 | Defaults, then the file if one exists. The result is `InitialSettings` of the file and well formed. |
| ConfigModel.Config.LoadSection | src/config.py:61-64 | One section's block: <br>• it merges that section when its lookup does not raise; <br>• otherwise it changes nothing and reports the raise. |
| ConfigModel.Config.SetSection | src/config.py:62-64 | Stores section i and nothing else, keeping the settings well formed. |
| ConfigModel.Config.LoadFromFile | src/config.py:54-86 | The new settings and the success flag are exactly those of the `Load` specification. |
| Json.AsNumber | src/config.py:121-138 | A value compares with 0 iff it is a bool, an int or a float. |

Four facts about the code shape the model:

- The scrape loop keeps no list of failed items and does not call a `ProgressTracker`.
- Backoff waits cannot be interrupted by a stop request.
- The stop flag is read only at the top of each iteration.
- The limiter is one closure variable shared by every scraper. It is not a per-scraper object.

## Left out

- HTTP session management (`__aenter__`, `__aexit__`, `start_session`, `close_session`) and the status-code check in `fetch_page` are not modelled. A transport attempt is an abstract `Result`, because HTTP is I/O.
- BeautifulSoup is not modelled. Each page is the list of elements the selectors would find, with each piece already found or not. A found tag is always truthy, so an empty `<h1>` gives an empty title, not the default.
- `time.time()` and `time.strftime` are parameters. Both `strftime` calls in one record receive the same `now`.
- The ETA in `update` is not modelled. It is computed and never used.
- Scraper.FetchPage: the limiter shares one timestamp between concurrent callers. Interleavings between concurrent callers are not modelled. The model treats calls as sequential.
- Scraper.PoeScraper.ScrapeConversations: another thread's `stop_scraping` is modelled as the boundary `stopAt` at which it is first seen. Other interleavings and `asyncio.CancelledError` (a `BaseException`, which `except Exception` does not catch) are not modelled.
- Scraper.PoeScraper.ScrapeConversations: a detail fetch or parse that fails is one `None` from the oracle, and exceptions are not distinguished. The retry and limiter behaviour of that fetch is stated separately by `FetchPage`.
- Logging calls are not modelled. They have no effect on the results.
- Float arithmetic is modelled as exact reals (`average_messages_per_conversation`, backoff waits, percentage). Limiter time is modelled as integer milliseconds.
- `load_from_file` reads the file with `json.load`. JSON text parsing and the open are not modelled: a file is unreadable or a parsed value. Setting names such as `__class__` that `hasattr` would also accept are treated as unknown keys.
- `save_to_file` is not modelled as I/O. Creating the directory and writing the file are left out. The document it writes is `SavedDocument`.
- `delay_between_requests` from the configuration is not read by the limiter, whose interval is fixed at 2 seconds in the code. The model follows the code.
- These modules are not part of this model: the exporters, `export_data`, `src/gui.py`, `src/poedotcom_refined.py` and `src/__init__.py`. They are presentation and export glue.
- These utility functions are not part of this model, because each is a direct library call with no logic to prove: `create_file_hash`, `ensure_directory`, `format_bytes`, `format_duration`, `Logger`, `test_connection`, `validate_url`.
- ProgressTracker callbacks are identified by number. What a callback does is not modelled, only the call and whether it raised.

## Findings

| source | as written | input that shows it | evidently intended | confidence | as-written member | corrected member |
|---|---|---|---|---|---|---|
| src/utils.py:112-117 | The leading and trailing dots and spaces are stripped before the cut to 200 characters. The cut can therefore leave a trailing dot or space, and sanitising twice differs from sanitising once. | 199 × `a` followed by `.b` gives 199 × `a` followed by `.` | The comment on the strip says the result has no trailing dots or spaces, so it should hold after the cut too. | medium, not executed | Utils.SanitizedNameNotIdempotent | Utils.SanitizedNameFixedSafe |
