# Instagram scraper helpers — a Dafny model

This project models the core of a small Python scraping toolkit in Dafny and
proves properties of that model:

- **Cookie sessions** (`sessions.py`). An expiry check walks a cookie table
  (domain → path → name → cookie). Loading, saving and deleting the pickled
  cookie file decides whether a stored jar is reused. `InstagramSession.login`
  reuses a valid stored jar. Otherwise it fetches a CSRF token, stamps the
  password field and posts the login form. The session holds the jar the
  login answers with, and that jar is saved to the cookie file only when the
  status is 200.
- **Proxy records and text formats** (`spoof.py`):
  - the `Proxy` record and its eight-field detail row;
  - stable sorting of proxies by a named attribute (`group_by`);
  - the `ip:port` list of the "simple" proxy page;
  - the `name|user_agents` query-parameter files: how they are written, how
    they are read back, and the numbered category menu that picks one.
- **Directory creation** (`file_manager.py`). `create_dir` splits a path with
  three regular expressions. It then creates every missing prefix directory in
  order.
- **Console input** (`user_input.py`). `get_input` re-prompts until a line is
  a valid option. `create_menu` numbers a menu and looks the answer up.

One module per source file: `Sessions` (sessions.dfy), `Spoof` (spoof.dfy),
`FileManager` (file_manager.dfy) and `UserInput` (user_input.dfy). Two shared
modules support them:

- `Wrappers` holds `Option`, `Result` and the Python exception kinds the code
  raises.
- `Text` holds Python's `str.split` and `str.join` on characters, and decimal
  rendering of integers. Lemmas relate split and join.

Things outside the program's own logic become parameters:

- **Network.** An `Exchange` value gives the home page's cookies, the session
  jars after each request and the login status. The requests that would be
  sent are recorded in a ghost trace.
- **Clock.** An integer.
- **Cookie file.** An `Option<Jar>`.
- **Environment variables and `urls.json` entries.** Constructor arguments.
- **`input()`.** A sequence of lines. Running out of lines is `EOFError`.
- **`int` on text.** A function `string -> Option<int>`.
- **File system.** A set of directories, a set of the existing paths that
  contain a separator but do not parse as directories, and a map from file
  paths to their text.

What `login` does, exactly as the code has it:

- There is no redirect-based "is authenticated" probe and no retry on stale
  cookies.
- No JSON `authenticated` field is read. Success is `status_code == 200`
  alone.
- A stored jar counts as valid when it is not empty and no cookie in it has
  expired, judged by the `expires` timestamps only.

## Model

| member | source | states |
|---|---|---|
| `Sessions.CheckExpirations` | sessions.py:72-128 | The result is None when the argument has no `items()`. Otherwise it is Some(b): b is true exactly when some cookie at some site and path has an `expires` at or before `now`. Cookies without an expiry never count. The nested loops visit the keys in any order. |
| `Sessions.LoadOutcome` | sessions.py:20-70 | A load succeeds exactly when the file exists, `fresh` is false, and the stored jar is non-empty with nothing expired. On success the session jar becomes the stored jar wholesale; otherwise the jar is unchanged. The file is deleted under `fresh` and is otherwise untouched. |
| `Sessions.SaveLoadRoundTrip` | sessions.py:15-58 | A jar written by `_save_cookies` is installed unchanged by a later non-fresh load, if it is non-empty and unexpired at load time. |
| `Sessions.LoadIdempotent` | sessions.py:39-58 | Loading again right after a successful load succeeds and changes nothing. |
| `Sessions.EncPasswordFields` | sessions.py:178-180 | `enc_password` splits on ':' into the tag, version "0", the timestamp's decimal text, then the password's own pieces. Joining those pieces gives the password back. |
| `Sessions.EncPasswordInjective` | sessions.py:178-180 | Equal `enc_password` texts have equal timestamps and equal passwords. |
| `Sessions.InstagramSession.constructor` | sessions.py:137-163 | Starts with an empty jar. Sets the four headers with an empty `x-csrftoken`, and the four form fields with an empty password, `queryParams` an empty dict and `optIntoOneTap` "false". |
| `Sessions.InstagramSession.SaveCookies` | sessions.py:15-18 | The cookie file is overwritten with the session's jar. |
| `Sessions.InstagramSession.ClearCookies` | sessions.py:130-132 | The file is gone afterwards. FileNotFoundError is returned when there was none. |
| `Sessions.InstagramSession.LoadCookies` | sessions.py:20-70 | The result, the jar and the file are those of `Load` on the old jar and file. It decides expiry through `CheckExpirations`. |
| `Sessions.InstagramSession.GetCsrfToken` | sessions.py:11-13 | Records a GET of the url and takes the jar after it. Returns the response's `csrftoken` cookie, or KeyError("csrftoken") when the response sets none. |
| `Sessions.InstagramSession.UpdateCsrfToken` | sessions.py:165-168 | `x-csrftoken` becomes the home page's token. On KeyError the headers are unchanged. |
| `Sessions.InstagramSession.UpdatePayload` | sessions.py:170-180 | Only `enc_password` changes; it becomes the stamped password text. |
| `Sessions.InstagramSession.Login` | sessions.py:182-218 | A successful load gives Ok(true) with no request sent and headers and form unchanged. Otherwise a GET of the home page is sent. A missing token gives KeyError and no POST. With a token, the headers and form are updated before one POST, which carries exactly them. The result is Ok(status == 200). The file is written with the new jar iff the status is 200. After a fresh login that did not succeed, no cookie file exists. |
| `Spoof.NewProxy` | spoof.py:298-316 | Every field is its argument, the omitted ones empty, and `proxy` is `ip:port`. |
| `Spoof.EndpointSplits` | spoof.py:308-310 | A constructed proxy's `proxy` text is `ip:port`. It splits back into ip and port when neither contains ':'. |
| `Spoof.AttributeNames` | spoof.py:343-344 | The nine attribute names and the attributes correspond one to one. |
| `Spoof.Sorter` | spoof.py:343-344 | Returns the named data attribute's value. AttributeError exactly when the name is none of the nine data attributes. |
| `Spoof.GetDetails` | spoof.py:330-341 | Eight values, one per column of the proxies CSV header, each the attribute under that column. |
| `Spoof.ProxyFromCells` | spoof.py:250-260 | A row of exactly eight cells builds a proxy whose detail row is those cells. Any other count is ValueError. |
| `Spoof.DetailsRoundTrip` | spoof.py:250-260 | A constructed proxy is rebuilt unchanged from its detail row by the eight-cell unpacking of `get_proxies`. |
| `Spoof.SortByPermutes` | spoof.py:287-291 | Sorting by an attribute rearranges the list: same multiset of proxies. |
| `Spoof.SortBySorted` | spoof.py:287-291 | The sorted list is in non-decreasing string order of the attribute. |
| `Spoof.SortByStable` | spoof.py:287-291 | For every key value, the proxies with that key keep their input order, as in Python's stable `sorted`. |
| `Spoof.GroupBy` | spoof.py:271-291 | AttributeError exactly when the list is non-empty and the name is no attribute. Otherwise the result is a permutation, sorted by the attribute and stable for every key. |
| `Spoof.ParseSimpleList` | spoof.py:235-241 | Returns `SimpleProxies` of the textarea's lines with the first three and the last dropped: one ip/port proxy per line in order, or ValueError if a line does not split on ':' into exactly two. |
| `Spoof.SimpleListRoundTrip` | spoof.py:237-241 | Three header lines, one `ip:port` line per proxy and a last line parse back into exactly those proxies. Fields must be free of ':' and line breaks. |
| `Spoof.FirstMalformed` | spoof.py:77-78 | The index of the first table row that does not unpack into two strings. Every row before it unpacks. |
| `Spoof.WriteQueryParams` | spoof.py:71-79 | The file is the header line plus one line per row, name and user agents joined by a bar, up to the first row that does not unpack. ValueError exactly when such a row exists. |
| `Spoof.ReadQueryParams` | spoof.py:159-170 | Returns the `(name, user_agents)` of every line after the header. The file is read in text mode with universal newlines and the newline stripped. ValueError if a line does not split at the bar character into exactly two. |
| `Spoof.QueryParamsRoundTrip` | spoof.py:75-79 | A written file read back gives exactly the pairs it was written from. Fields must be free of the bar character and of line breaks; the reading loop is spoof.py:166-170. |
| `Spoof.Selection` | spoof.py:137-155 | With `category >= 0` the typed input is ignored and the choice is `category`. Otherwise it is the typed number less one, so number k picks the (k-1)-th category. ValueError when the text is not a number. No choice for anything outside 1..n. |
| `Spoof.ListQueryOptions` | spoof.py:122-176 | An invalid number lists nothing and opens no file. A valid one reads that category's file with `ReadQueryParams`. A missing file is reported together with the choice for the re-run. |
| `Spoof.RerunSelectsSame` | spoof.py:174-176 | The recursive run after fetching a missing file selects the same category without asking. |
| `FileManager.WordRun` | file_manager.py:8-9 | The greedy `\w+` prefix: all word characters and followed by a non-word character or the end. |
| `FileManager.SegmentRun` | file_manager.py:7 | The greedy `[^\\/]*` group: free of separators and followed by a separator or the end. |
| `FileManager.FindDirectories` | file_manager.py:7 | `DIRECTORY.findall` yields at most one segment per character of the path. |
| `FileManager.FindDirectoriesSplit` | file_manager.py:7 | `DIRECTORY.findall` yields exactly the pieces of the path between separators after the first piece. |
| `FileManager.DriveLetter` | file_manager.py:8 | A match gives a non-empty word that starts the path and is followed by ':' and a separator. |
| `FileManager.Root` | file_manager.py:9 | A match gives a non-empty word that starts the path and is followed by a separator. |
| `FileManager.DriveLetterMatches` | file_manager.py:8 | `DRIVE_LETTER` matches with group w iff the path starts with a non-empty word w, ':' and a separator. |
| `FileManager.RootMatches` | file_manager.py:9 | `ROOT` matches with group w iff the path starts with a non-empty word w and a separator. |
| `FileManager.Locate` | file_manager.py:20-31 | AttributeError exactly when neither `DRIVE_LETTER` nor `ROOT` matches. Otherwise the base is the working directory exactly when there is no drive letter. |
| `FileManager.LocateDrive` | file_manager.py:20-24 | With a drive letter, the directories are created under `X:/` and are the separator-split pieces after the first. |
| `FileManager.LocateRelative` | file_manager.py:25-31 | Without one, after the root word is inserted, the directories under the working directory are all the separator-split pieces. |
| `FileManager.LocateFails` | file_manager.py:31 | With neither pattern matching, `ROOT.search(...).group` raises AttributeError. |
| `FileManager.LocateExamples` | file_manager.py:20-31 | "json", "./a" and "/abs" all end in AttributeError. |
| `FileManager.Normalize` | file_manager.py:41-43 | Normalizing never lengthens the component list. |
| `FileManager.NormalizeKeeps` | file_manager.py:41-43 | Exactly the non-empty components are kept, and none of the result is empty. A list without empty components is left as it is. |
| `FileManager.NormalizeConcat` | file_manager.py:41-43 | Normalizing a concatenation normalizes each part, so the kept components stay in order. |
| `FileManager.FileSystem.PathExists` | file_manager.py:16 | `os.path.exists(filepath)`: a path with a drive letter or a root word exists exactly when its normalized directory exists. A non-empty name without separators exists exactly when that entry of the working directory does; the empty path never exists. Any other path exists exactly when it is one of the unparsed paths. |
| `FileManager.FileSystem.Mkdir` | file_manager.py:48 | `os.mkdir` raises FileExistsError on an existing directory and FileNotFoundError when the parent is missing, changing nothing. Otherwise it adds exactly that directory. |
| `FileManager.PrefixesClimb` | file_manager.py:41-43 | Each prefix `directories[:i]` is the previous one again (an empty component) or lies one component below it, starting from the base. |
| `FileManager.MadeLast` | file_manager.py:45-48 | A round creates nothing or exactly its own prefix. A round that raised nothing leaves its prefix existing. |
| `FileManager.MadePrefixesExist` | file_manager.py:33-48 | After n rounds that raised nothing, each of the first n prefixes exists. |
| `FileManager.MadeParentExists` | file_manager.py:41-48 | From the second round on, a missing prefix always finds its parent, which is the previous prefix and already exists. |
| `FileManager.MadeFailure` | file_manager.py:22-48 | The loop raises FileNotFoundError exactly when the first prefix and its base are both missing. That needs a drive root `X:/` that does not exist; under the working directory no `os.mkdir` fails. |
| `FileManager.MissingDriveExample` | file_manager.py:20-48 | `create_dir("Q:/a")` with no drive `Q:` finds neither `Q:/a` nor `Q:/`, so the first `os.mkdir` raises. |
| `FileManager.MadeFailedStays` | file_manager.py:48 | Once an `os.mkdir` raised, no later round runs. |
| `FileManager.MadeSkip` | file_manager.py:45-46 | A round whose prefix exists creates nothing. |
| `FileManager.MadeAdd` | file_manager.py:45-48 | A round whose prefix is missing creates it when its parent exists. When the parent is missing, `os.mkdir` raises and the loop stops. |
| `FileManager.MadeGrowth` | file_manager.py:41-48 | A round creates nothing, or a directory that did not exist, is not a base and is one component deeper than the previous prefix. |
| `FileManager.MadeNew` | file_manager.py:45-48 | No directory that existed before is created again, and no base is created. |
| `FileManager.MadeArePrefixes` | file_manager.py:36-43 | Every created directory is one of the prefixes `directories[:i]` visited so far. |
| `FileManager.MadeBounded` | file_manager.py:36-43 | No created directory is deeper than the last prefix visited. |
| `FileManager.MadeDeepening` | file_manager.py:33-48 | Directories are created shallow to deep, so none is created twice. |
| `FileManager.FileSystem.CreatePrefixes` | file_manager.py:33-48 | The loop creates exactly the directories listed by `Made` over the prefixes, in order. It raises FileNotFoundError exactly when `Made` says a round failed. The directory set afterwards is the old one plus those created. |
| `FileManager.FileSystem.CreateDir` | file_manager.py:15-48 | An existing path changes nothing. A path that neither pattern matches fails with AttributeError and creates nothing. Otherwise the missing prefixes are created, or FileNotFoundError is raised, as `CreatePrefixes` states. |
| `FileManager.CreateTwiceExample` | file_manager.py:15-48 | `create_dir("json/")` on an empty file system succeeds, and a following `create_dir("json")` finds cwd/json and succeeds too. |
| `UserInput.GetInput` | user_input.py:9-50 | An accepted line is one of the case-folded options as typed, and it is the last line read. A Converted answer is the conversion of that line; a Raw answer is the line itself. Running out of input is EOFError. |
| `UserInput.RejectedLines` | user_input.py:30-48 | Every line before the accepted one, or every line when input runs out, was either not an option or failed to convert. |
| `UserInput.ConvertedIffTypeKept` | user_input.py:35-48 | With a conversion, the answer is converted exactly when every earlier line failed to convert. A converting line that is not an option makes all later answers raw. |
| `UserInput.FirstLineAccepted` | user_input.py:35-50 | A first line that converts and is an option is returned at once, converted. |
| `UserInput.RetryKeepsType` | user_input.py:36-44 | A line that fails to convert is consumed and the prompt repeats with the same type. |
| `UserInput.RetryDropsType` | user_input.py:46-48 | A line that converts but is not an option is consumed and the prompt repeats without a type. |
| `UserInput.FoldedTwice` | user_input.py:30-31 | Folding the already folded options changes nothing, so the recursive calls accept the same lines. |
| `UserInput.Enumerated` | user_input.py:72 | The enumeration numbers the n entries 1..n. Number k holds the (k-1)-th entry. |
| `UserInput.MenuListNumbered` | user_input.py:72-75 | Menu numbers are exactly 1..n, plus n+1 holding "exit" when asked. Number k holds the (k-1)-th entry. |
| `UserInput.CreateMenu` | user_input.py:53-84 | The menu is `MenuList`, numbered as `MenuListNumbered` states. The choice is that menu looked up at the answer `get_input` gives for the menu's folded keys with `int`. |
| `UserInput.Lookup` | user_input.py:84 | `menu_list[user_choice]`: the entry under a converted choice that is a menu number. A raw choice is KeyError on that text, and an error from `get_input` passes through. |
| `UserInput.ChoiceLookup` | user_input.py:83-84 | When `int` reads decimals back, a converted answer is always a menu number and finds its entry. A raw answer always ends in KeyError. |
| `UserInput.MenuRetryKeyError` | user_input.py:46-48 | As written: on a two-item menu, typing "3" and then "1" ends in KeyError("1"). |
| `UserInput.GetInputRetyped` | user_input.py:9-50 | Corrected reader: it keeps the type on every retry, so with a type every accepted answer is converted. |
| `UserInput.RetypedMenuChoice` | user_input.py:83-84 | With the corrected reader, a menu choice always finds an entry unless input runs out. |

## Left out

- HTTP requests, BeautifulSoup parsing and `pickle`. The network is the
  `Exchange` oracle, and page contents arrive as already extracted text or
  cell lists.
- `print` output and the `display` flag of `_check_expirations`.
- Float timestamps and time zones. Clocks are integers, so the `enc_password`
  timestamp is an integer's decimal text.
- Sessions.CheckExpirations: the iteration order of Python dictionaries is not
  modelled. The result does not depend on it.
- Sessions.InstagramSession.GetCsrfToken: how `requests` merges response
  cookies into the session jar is not modelled. The exchange supplies the jar.
- Environment variables that are unset (`os.getenv` returning None). They are
  taken to be strings.
- `UserAgents.get_query_options_data`, `_get_user_agents`,
  `get_chrome_windows_users` and the two CSV writers of `Proxies`. These are
  network fetches and `csv` module quoting. Only the line format of
  `_get_query_options_data` is modelled.
- Spoof.ProxyFromCells: `.string` of a cell that is None, and whitespace
  children of a table row, are not modelled. Cells are text.
- Spoof.ParseSimpleList: a page without the textarea (an AttributeError) is
  not modelled.
- Spoof.Sorter: only the nine data attributes are modelled. A method name
  (`get_details`, `sorter`) or a dunder name (`__module__`) makes
  `__getattribute__` return a bound method or a string; the model gives
  AttributeError for those names.
- Spoof.GroupBy: such method and dunder names are treated as unknown names,
  as in `Sorter`. With one proxy the source returns the list unchanged. With
  more, it raises TypeError when the keys do not compare (bound methods)
  rather than AttributeError.
- Spoof.ListQueryOptions: one run is modelled. The recursive run after
  fetching a missing file is `RerunSelectsSame`. If the fetch does not
  produce the file, the source recurses without end, and that is not
  modelled.
- FileManager: `os.path.normpath` is modelled only as dropping empty
  components. `.` and `..` are kept as names. `os.getcwd()` is an abstract
  base that always exists. A drive root `X:/` exists only when the file system
  holds it, like any other directory.
- `\w` (FileManager) and `str.casefold` (UserInput) are modelled on ASCII only.
- FileManager.FileSystem.PathExists: a path that contains a separator but
  matches neither pattern (`./a`, `/abs`) takes its existence from
  `unparsed`. That set is an independent input: it is not tied to the
  directories and `os.mkdir` does not update it.
- FileManager.FileSystem.CreateDir: `os.mkdir` errors other than an existing
  path or a missing parent (permissions, a file in the way) are not modelled.
- `geography.py`, `instagram_data.py`, `instagram_scraper.py`, `scraper.py`
  and `main.py` are not part of this model.

## Findings

| source | as written | input that shows it | evidently intended | confidence | as-written member | corrected member |
|---|---|---|---|---|---|---|
| user_input.py:46-48 | A line that converts but is not an option makes `get_input` retry with no `valid_type`. The next accepted answer is then a string, and `create_menu`'s `menu_list[user_choice]` raises KeyError. | a two-item menu with the lines "3", "1" | keep `valid_type` on that retry, so that the answer is the entry numbered 1 | high; not executed | `UserInput.MenuRetryKeyError` | `UserInput.GetInputRetyped` |
