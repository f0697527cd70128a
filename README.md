# simple-cli-news in Dafny

A model of the URL building, argument dispatch and settings logic of
`simple-cli-news`, a command-line client for the newsapi.org REST API.

- `cli.dfy` (`src/main.rs`) covers the binary's flat `NewsApiUrl` record and
  its `to_str`. `to_str` is a method that grows the URL one `&key=value` at a
  time. `main`'s single pass over the arguments is the method `Cli.Run`. It
  returns the final record, the `return_articles` flag, the complaint it
  prints, the sources listing it asks for and the URL it fetches.
  `NewsApiUrl::new` is the function `Cli.New`; the record it builds is fixed
  by `Cli.Run`'s ensures and `Cli.DefaultUrl`.
- `requests.dfy` (`src/request.rs`) covers the library builder: the
  `Endpoint` union, `Request`, the two mode switches, `new_empty` and
  `to_string`. `to_string` is a method that accumulates `key=value&` pairs and
  closes with `language=…&pageSize=…&apikey=…`.
- `config.dfy` (`src/request/config.rs`) covers the settings file.
  - `NewsConfig` is the stored record.
  - `get_config`, `invalid_config` and `set_config` are methods of the class
    `ConfigStore`. Its fields are the file and the unread standard input.
  - Each method is proved equal to a specification function over a `Store`
    value (`Load`, `Repair`, `Save`). The lemmas state the properties of
    those functions.
- `query.dfy` holds the shared model of a query string: a list of `Param`s
  joined by `&`. It proves three things about that list:
  - the parse round trip, `ParseQuery(Join(ps)) == Text(ps)`;
  - the key order, with `KeysFollow`;
  - that a list in a given key order is determined by its members.
- `calendar.dfy` and `decimal.dfy` hold what chrono's and Rust's formatting
  do here:
  - a Unix timestamp becomes a proleptic Gregorian date, proved to be a
    bijection on day numbers;
  - `%Y-%m-%d` reads back as the date, while `%Y-%d-%m` reads back with day
    and month exchanged;
  - an integer is written in decimal.
- `compare.dfy` states where the two URL builders disagree.
- `options.dfy` holds `Option`.

Each URL is specified as an address plus the join of a parameter list. Each
list function has three partners:
- an `Emitted` table saying, key by key, which value is sent;
- an order lemma;
- a round trip back through a query-string parser.

The clock is a parameter:
- `to_str` takes `now`, the local wall-clock time in seconds.
- `with_everything` takes `now` in UTC seconds.
- `to_string` formats the stored `from` instant in UTC.

Behaviour worth noting:
- `to_string` sends `country` even when `sources` is set. Only `to_str`
  suppresses it.
- `to_string` formats `from` as `%Y-%d-%m`, day before month, while `to_str`
  writes `%Y-%m-%d`.
- `to_string` spells the key parameter `apikey`, and `to_str` spells it
  `apiKey`.
- `get_config` panics when the file is missing. Only `set_config` creates the
  file, and it creates it empty.
- `main` reads positional words (`q`, `source`, `list sources`).
- The repair loop prompts until it reads a decisive line. In the model it ends
  because exhausted input reads as an empty line, which resets.

## Model

| member | source | states |
|---|---|---|
| Decimal.NatToDecimalRoundTrip | src/request.rs:152-155 | the decimal digits written for a number read back as that number |
| Decimal.ZeroPad | src/main.rs:50-52 | a zero-padded field is all digits, at least the width, exactly the width when the value fits, and reads back as the value |
| Decimal.IntToDecimal | src/request.rs:152-155 | an `i32` page size is written as a minus sign exactly when negative, then at least one digit with no leading zero, without `&`, and parses back to itself |
| Calendar.CivilFromDays | src/main.rs:50-52 | every day number has a valid calendar date with that day number |
| Calendar.DateOf | src/request.rs:123 | a timestamp's date is valid and its day number is the timestamp divided by 86400, rounded down |
| Calendar.CivilRoundTrip | src/main.rs:50-52 | converting a valid date to its day number and back gives the same date |
| Calendar.DaysFromCivilInjective | src/main.rs:50-52 | two valid dates with the same day number are equal |
| Calendar.DaysEarlier | src/main.rs:50 | going back k whole days from a timestamp moves its date back exactly k days |
| Calendar.YearField | src/main.rs:51 | `%Y` has no `&` or `?`, and for years 0 to 9999 it is four digits reading back as the year |
| Calendar.IsoDateRoundTrip | src/main.rs:50-52 | `%Y-%m-%d` of a date with a four-digit year parses back as that date |
| Calendar.DayMonthReadAsIso | src/request.rs:123 | `%Y-%d-%m` parses as an ISO date only as the date with day and month exchanged, and does not parse when the day exceeds 12 |
| Query.Name | src/main.rs:44-83 | every parameter name is non-empty and contains no `&` or `=` |
| Query.Opt | src/main.rs:54-57 | an optional value contributes exactly its pair when present and nothing when absent |
| Query.JoinSnoc | src/main.rs:55 | appending `&k=v` to a join is the join of the list extended by that pair |
| Query.Extend | src/main.rs:54-83 | a `format!("{}&k={}", base, v)` step keeps `base` equal to the address plus the join of the pairs emitted so far |
| Query.AppendTerminated | src/request.rs:131-148 | a `format!("{}k={}&", link, v)` step keeps `link` equal to the address plus the `&`-terminated pairs emitted so far |
| Query.JoinAppend | src/request.rs:152-155 | `&`-terminated pairs followed by a join are the join of the whole list |
| Query.QueryRoundTrip | src/main.rs:44-85 | splitting the joined pairs on `&` and `=` gives back every name and value in order, when no value contains `&` |
| Query.KeysFollowDetermined | src/main.rs:44-85 | two lists in the same order of distinct keys with the same members are equal |
| Cli.FromDateWindow | src/main.rs:50-52 | the `from` date parses back as the calendar day 14 days before `now`'s day |
| Cli.ModeParams | src/main.rs:49-73 | the endpoint-dependent pairs are exactly the language, from, page-size, country and category pairs that `Emitted` sends |
| Cli.Params | src/main.rs:44-47 | the first pair is always `apiKey` with the key |
| Cli.ParamsEmitted | src/main.rs:44-85 | `to_str` sends a pair if and only if `Emitted` gives that key that value: language, `from` and `pageSize=20` only for `everything`; country only for `top-headlines` without sources; category only for `top-headlines`; sources and query whenever present |
| Cli.ToStr | src/main.rs:43-86 | the built string is the address, `?`, and the join of `Params` for the `from` date 14 days before `now` |
| Cli.Build | src/main.rs:44-85 | the reassignments of `base` produce exactly `Url(u, date)` |
| Cli.PushMode | src/main.rs:49-73 | the endpoint block appends exactly the mode pairs |
| Cli.PushHeadlines | src/main.rs:60-72 | the headlines block appends the country only without sources, then the category |
| Cli.PushOpt | src/main.rs:75-83 | an optional `&k=v` append adds its pair when present and nothing otherwise |
| Cli.EverythingOrder | src/main.rs:54-59 | language, from and page size come in that order before the later keys |
| Cli.HeadlinesOrder | src/main.rs:60-72 | country then category come before sources and query |
| Cli.ModeOrder | src/main.rs:49-73 | the mode pairs sit between the key and the sources, in order |
| Cli.ParamOrder | src/main.rs:44-85 | the pairs follow the order apiKey, language, from, pageSize, country, category, sources, q, each key at most once |
| Cli.ParamsCanonical | src/main.rs:44-85 | any list in that order holding exactly the emitted pairs is the emitted list |
| Cli.ParamsUnambiguous | src/main.rs:44-85 | when no field contains `&`, no emitted value does |
| Cli.UrlRoundTrip | src/main.rs:44-47 | the URL splits at the first `?` into the host and endpoint, and the query parses back to the emitted pairs |
| Cli.DefaultUrl | src/main.rs:31-86 | a run without arguments builds `https://newsapi.org/v2/top-headlines?apiKey=K&country=us` |
| Cli.SearchParams | src/main.rs:101-105 | a `q` search sends the key, the date, page size 20 and the query, in that order |
| Cli.SearchUrl | src/main.rs:49-59 | a `q` search builds `…everything?apiKey=K&from=D&pageSize=20&q=Q` |
| Cli.SourcesUrl | src/main.rs:61-67 | a sources filter drops the default country: `…top-headlines?apiKey=K&sources=S` |
| Cli.Run | src/main.rs:89-163 | `q` with a word sets the query and switches to `everything`. `source` sets sources only with exactly three arguments. `list` clears the fetch flag and nothing else does. Each complaint is printed exactly in its case. The sources listing is requested with 3 or 4 arguments. The fetched URL is `to_str` of the final record |
| Requests.WithEverything | src/request.rs:54-67 | the result is an Everything request that keeps an existing `from`, takes `now` − 10 days from headlines, and keeps every other field |
| Requests.WithHeadlines | src/request.rs:70-83 | the result is a Headlines request that keeps existing country and category, clears both coming from Everything, and keeps every other field |
| Requests.SwitchIdempotent | src/request.rs:54-83 | each switch applied twice equals once, whatever the clock reads the second time |
| Requests.RoundTripForgets | src/request.rs:54-83 | switching away and back replaces the case's own fields by the defaults and changes nothing else |
| Requests.NewEmpty | src/request.rs:103-113 | a loaded record gives a Headlines request with no filters, page size 20, and the record's key and language; a failure or panic of `get_config` passes through |
| Requests.NewEmptyAfterSave | src/request.rs:103-113 | after a `set_config` that returns, `new_empty` builds on the record written, with every supplied field |
| Requests.FromText | src/request.rs:123 | the formatted `from` date contains no `&` |
| Requests.FromTextSwapped | src/request.rs:123 | the `from` date read as ISO is the UTC date with day and month exchanged |
| Requests.Params | src/request.rs:152-155 | every URL ends with the language, page size and lower-case `apikey` pairs |
| Requests.ParamsEmitted | src/request.rs:115-156 | `to_string` sends a pair if and only if `Emitted` gives that key that value: `from` only for Everything with an instant; country and category for Headlines whenever present, sources or not |
| Requests.ParamOrder | src/request.rs:115-156 | the pairs follow the order from, country, category, q, sources, language, pageSize, apikey |
| Requests.ModeOrder | src/request.rs:118-141 | the endpoint's pairs come first, in order |
| Requests.ParamsCanonical | src/request.rs:115-156 | any list in that order holding exactly the emitted pairs is the emitted list |
| Requests.CountryDespiteSources | src/request.rs:129-134 | a Headlines request with a country and sources sends both |
| Requests.ParamsUnambiguous | src/request.rs:115-156 | when no field contains `&`, no emitted value does |
| Requests.UrlRoundTrip | src/request.rs:116-127 | the URL splits at the first `?` into the host and `everything` or `top-headlines` by the endpoint case, and the query parses back to the emitted pairs |
| Requests.Address | src/request.rs:120-127 | the path is the endpoint's name followed by `?`, and the address has no other `?` |
| Requests.ToString | src/request.rs:115-156 | the built string is the address and the join of `Params`, with `from` printed as `%Y-%d-%m` of its UTC date |
| Requests.Build | src/request.rs:116-155 | the reassignments of `link` produce exactly `Url(r, date)` |
| Requests.PushEndpoint | src/request.rs:118-141 | the endpoint block appends exactly the endpoint's pairs, each followed by `&` |
| Requests.PushOpt | src/request.rs:142-150 | an optional `k=v&` append adds its pair when present and nothing otherwise |
| Requests.Close | src/request.rs:152-155 | the closing `format!` completes the join of all pairs |
| Requests.FixedJoin | src/request.rs:152-155 | the fixed pairs render as `language=L&pageSize=N&apikey=K` |
| Config.WithoutNewlines | src/request/config.rs:41 | the result has no newline, keeps every other character, is the input when that has no newline, and a single character is dropped exactly when it is a newline |
| Config.WithoutNewlinesAppend | src/request/config.rs:41 | removing newlines distributes over concatenation |
| Config.TypedLine | src/request/config.rs:39-51 | a typed line ended by Enter reads as what was typed: `1` or nothing resets, `2` aborts, anything else prompts again |
| Config.Choose | src/request/config.rs:33-52 | the loop ends at the first read that decides, which always exists because exhausted input reads as an empty line |
| Config.Merge | src/request/config.rs:73-79 | a supplied key or language replaces the field; an absent one keeps it |
| Config.Load | src/request/config.rs:15-30 | a missing file panics and changes nothing; a decodable file returns its record and reads no input; an undecodable file goes to the repair loop; a returned record is what the file then holds |
| Config.Repair | src/request/config.rs:32-53 | a returned record is what the file then holds, and the file still exists |
| Config.Save | src/request/config.rs:55-85 | the file exists afterwards and holds an encoded record unless the call panicked; it never returns an error |
| Config.RepairByChoice | src/request/config.rs:32-53 | the loop's outcome is the first decisive read's: a reset stores and returns the default record, "2" panics, a read error is returned; the file is otherwise unchanged and the reads up to that one are consumed |
| Config.SaveIgnoresFile | src/request/config.rs:62-67 | without recovery the written record is the default overlaid with the supplied fields, whatever the file held, and no input is read |
| Config.SaveRecovers | src/request/config.rs:62-79 | recovering from a readable file keeps its fields unless supplied, and reads no input |
| Config.SaveRecoverWithoutFile | src/request/config.rs:56-67 | recovering without a file prompts exactly as for an empty, undecodable file, so a "2" panics |
| Config.SaveRecoversCorrupt | src/request/config.rs:62-79 | recovering from an undecodable file, when the call returns, writes the default overlaid with the supplied fields |
| Config.SaveThenLoad | src/request/config.rs:15-85 | after `set_config` returns, `get_config` returns the record written without prompting, and it carries every supplied field |
| Config.LoadStable | src/request/config.rs:15-30 | loading again after a successful load returns the same record and reads nothing |
| Config.MergeIdempotent | src/request/config.rs:73-79 | overlaying the same fields twice equals once; overlaying nothing changes nothing |
| Config.ConfigStore.GetConfig | src/request/config.rs:15-30 | the result and the new file and input are those of `Load` |
| Config.ConfigStore.InvalidConfig | src/request/config.rs:32-53 | the prompt loop's result and new state are those of `Repair` |
| Config.ConfigStore.SetConfig | src/request/config.rs:55-85 | the result and the new file and input are those of `Save` |
| Compare.CountryWithSources | src/request.rs:129-134 | given a country and sources, `to_str` drops the country and `to_string` sends it |
| Compare.DateOrder | src/request.rs:123 | for a day after the 12th, the `to_str` date reads back as that day and the `to_string` date is no ISO date |
| Compare.KeyName | src/request.rs:153 | `to_str`'s parameters start with the key as `apiKey`, `to_string`'s end with it as `apikey`, and the two names differ |

## Left out

- HTTP: `get_articles`, `to_response` and the `ureq` call of `src/list.rs`. The model returns the URL that would be fetched instead.
- JSON. The file's `Contents` is either `Encoded(c)`, text that decodes to the record `c`, or `Undecodable`, text that does not decode. This stands for the assumption that encoding a `NewsConfig` and decoding it gives back exactly that record; which texts decode (field order, whitespace, unknown fields) is not modelled. Deserializing articles and sources is not modelled.
- Printing: `print_articles`, `Response::output`, `Sources::display` and the coloured messages. `Cli.Run` returns the complaint it would print instead.
- `src/list.rs` as a whole. It only picks between two fixed URLs and fetches.
- `config_path`, `ProjectDirs` and filesystem errors. The file is an in-memory value; creating it, truncating it and writing it always succeed.
- Clock reads become parameters. For `to_str`, `now` is local wall-clock time as seconds since the epoch, and the time-zone offset is assumed constant over the 14 days.
- Sub-second precision of `DateTime` is not modelled. Only the date is printed.
- `Endpoint::new_everything`, `Endpoint::new_headlines`, `Request::new` and `NewsConfig::new` are the datatypes' constructors.
- Cli.Run: the built-in API key is a parameter, and a failing fetch or listing is not modelled.
- `read_line` returning an I/O error is the input line `Unreadable`, which the model propagates as `ReadFailed`. A line read at end of input is empty.
- Calendar.YearField: the year field's width is not stated for years outside 0 to 9999. chrono bounds its dates to about ±262000 years, and the model does not.
