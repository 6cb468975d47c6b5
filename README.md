# serch — a verified model of the artist and playlist pipeline

serch builds a local database of music artists for search ranking. It
resolves MusicBrainz artist names to Spotify ids, fills per-artist and
per-track information records, scrapes monthly-listener counts and bio
genres from artist pages, classifies artists into activity cohorts, and
collects the artists on Spotify's editorial playlists day by day. It is a
batch pipeline: each script reads CSV ledgers, works out which entries are
new, asks a remote service about them, and appends the answers to a ledger.

This project models that pipeline's logic in Dafny and proves what it
promises: the work sets are what the ledgers say is missing, in order and
truncated; every looked-up name ends in exactly one of the found or missing
lists; the columnar records stay aligned; headers are written only when a
ledger is created; the cohort filters are nested or disjoint; the label and
filename parsers read back what was written.

The modules follow the scripts:

| module | script |
|---|---|
| `Common`, `Seqs`, `Text` | Python values, list comprehensions and `str` methods the scripts use |
| `Ledger` | pandas CSV reading and writing as the scripts use it (`read_csv`, `usecols`, `to_csv` with `mode='a'` and `header`) |
| `Columns` | the dict-of-lists records shared by `ArtistInfoDict` and `TrackInfoDict` |
| `Webscrapers` | `Webscrapers.py` |
| `MonthlyListenersWebscraper` | `Monthly_Listeners_webscraper.py` |
| `ArtistInfoHelper` | `artist_info_helper.py` |
| `TrackInfoHelper` | `track_info_helper.py` |
| `ArtistNamesIds` | `MusicBrainz_ArtistNames_IDs.py` |
| `Deepscrape` | `MusicBrainz_ArtistNames_IDs-deepscrape.py` |
| `ArtistNamesAnalysis` | `ArtistNames_analysis.py` |
| `ArtistTrackInfo` | `MusicBrainz_artist_track_info.py` |
| `ArtistInfo` | `MusicBrainz_artist_info.py` |
| `EditorialPlaylistsInfo` | `Editorial_playlists_info.py` |
| `EditorialPlaylistsArtistInfo` | `Editorial_playlists_artist_info.py` |
| `EditorialTracksInfo` | `Editorial_tracks_info.py` |

How the scripts' surroundings are represented:

- The file system is a map `Fs` from path to the lines a file holds. `Ledger.ReadCsv` reads those lines as pandas does: the header names the columns, short lines are padded with empty fields, and a field that pandas reads as NaN (`"null"`, `"nan"`, an empty field) becomes `Nan`.
- Every remote call is a function parameter: the Spotify search and catalogue calls, the MusicBrainz deep lookup, the artist pages `requests.get` fetches (as a `Page` with a status code and the element BeautifulSoup finds), and the editorial playlist pages.
- The time a batch of requests takes is a parameter (`batchTime`). An alarm fires exactly when that time, with pauses, runs past the limit. Each `time.sleep` is recorded in a returned list of pauses.
- Random draws are parameters: the positions `random.sample` picks, and a `choose` function for `np.random.choice`.
- The order in which `list(set(...))` lists a set is a parameter `listOf`, constrained to list each element once.
- The configured paths are parameters (a `Config` record or a `dir` string).
- Python exceptions and `sys.exit` are values of `Result`/`Option` carrying a `PyError`.

Classes whose methods update their fields in place (`ArtistInfoDict`, `TrackInfoDict`, `ArtistNames`) are Dafny classes. Each method's contract gives the new state as a function of the old one. Loops in the source are `while` loops proved against a function that specifies them.

## Model

| member | source | states |
|---|---|---|
| Webscrapers.ScrapeMonthlyListeners | Webscrapers.py:16-32 | a page that did not load (status other than 200) gives `None`, and only such a page does; a loaded page without the label element gives 0; the only error is `ValueError`, on a loaded page with a label; otherwise the result is the integer in the label text before "monthly listener", with commas dropped and spaces trimmed |
| Webscrapers.LabelRoundTrip | Webscrapers.py:23-26 | the label a page shows for n listeners, "n monthly listeners" with n grouped by commas, reads back as n |
| Webscrapers.UngroupDigits | Webscrapers.py:25 | dropping the commas from a comma-grouped decimal gives back its digits |
| Webscrapers.BareLabelRaises | Webscrapers.py:25 | a label with no number in front of "monthly listener" raises `ValueError` in `int()` |
| Webscrapers.ScrapeGenresFromBio | Webscrapers.py:34-51 | `None` exactly when the page did not load or has no bio; otherwise the genres found are exactly the listed genres that occur in the lowercased bio, at most as many as were listed |
| Webscrapers.GenresFound | Webscrapers.py:42-45 | distinct genres to look for give distinct genres found; when the lowercased bio contains every listed genre, the result is the whole list in its order |
| Webscrapers.GenresInOrder | Webscrapers.py:42-45 | the genres found are the listed genres that occur in the lowercased bio, in the order and with the repeats of the list |
| Webscrapers.CapitalGenreNeverFound | Webscrapers.py:43-44 | only the bio is lowercased, so a listed genre holding a capital letter is never found |
| Webscrapers.BioCaseIgnored | Webscrapers.py:43-44 | the bio's case does not change which genres are found |
| MonthlyListenersWebscraper.RowCount | Monthly_Listeners_webscraper.py:35-43 | the id "missing" counts −1 and no page is requested; a page that did not load counts −1; a loaded page without the label counts 0; the only error is `ValueError`, raised by a page's label |
| MonthlyListenersWebscraper.RowCountOfLabel | Monthly_Listeners_webscraper.py:11-27 | a page showing n listeners counts n (the copy of `scrape_monthly_listeners` in this script is the one in `Webscrapers.py`, modelled once) |
| MonthlyListenersWebscraper.WithCountFields | Monthly_Listeners_webscraper.py:48 | after `chunk["monthly_listeners"] = batch` the count is in the 'monthly_listeners' column and every other field is unchanged |
| MonthlyListenersWebscraper.WithCounts | Monthly_Listeners_webscraper.py:45-48 | each row of the chunk gets exactly one count, its own, and the chunk keeps its length |
| MonthlyListenersWebscraper.WriteChunks | Monthly_Listeners_webscraper.py:30-55 | the chunk loop: the ledger and the failure are those of the specification `FromChunk`; each pause is 30 s; a run without failure pauses once per chunk of 100 rows |
| MonthlyListenersWebscraper.ChunkedWrite | Monthly_Listeners_webscraper.py:30-52 | when every page reads, writing chunk by chunk, with a header only when the file does not exist yet, equals one header-once append of all rows with their counts |
| MonthlyListenersWebscraper.RunChunks | Monthly_Listeners_webscraper.py:29-55 | the whole `__main__` loop: its outcome is the specification `Script`, which first reads the info ledger and its 'ids' and 'names' columns |
| MonthlyListenersWebscraper.ScriptReadBack | Monthly_Listeners_webscraper.py:29-52 | a run in which every page reads leaves a new ledger that reads back as the header once and then every info row with its count, in order |
| Columns.ExcludeKeys | artist_info_helper.py:76-80 | excluding 'ids' is fatal; otherwise the keys are exactly the default keys not excluded |
| Columns.EmptyData | artist_info_helper.py:82 | `{key: [] for key in self.keys}`: exactly the keys, each with an empty list |
| Columns.EmptyAligned | track_info_helper.py:110 | a record with no values yet is aligned with its 'ids' list |
| Columns.Extend | track_info_helper.py:172-213 | `self.data[key].extend(...)` guarded by `if key in self.keys`: present keys with new values are extended, all others keep their lists, and no key is added |
| Columns.ExtendAligned | artist_info_helper.py:100-131 | extending every key by the same number of values keeps the record aligned and grows 'ids' by that number |
| Columns.CheckEqualLength | artist_info_helper.py:93-98 | the check passes exactly when every key's list is as long as 'ids' |
| ArtistInfoHelper.FirstMatch | artist_info_helper.py:40-42 | the position of the first hit whose lowercased name equals the lowercased query; no hit before it matches |
| ArtistInfoHelper.ExactMatch | artist_info_helper.py:34-43 | `None` exactly when no hit matches the query up to case (an empty result list included); otherwise the id of a matching hit |
| ArtistInfoHelper.FirstMatchAt | artist_info_helper.py:40-42 | the match returned is pinned down by the hits before it: the first hit that matches |
| ArtistInfoHelper.GetArtistSpotifyId | artist_info_helper.py:27-43 | the loop with its early return computes `ExactMatch` |
| ArtistInfoHelper.YearOfIsoDate | artist_info_helper.py:58 | the year of an ISO date is the number before its first '-' |
| ArtistInfoHelper.Years | artist_info_helper.py:58 | the comprehension succeeds exactly when every date has a year, and then lists those years in date order |
| ArtistInfoHelper.ReleaseDatesSpec | artist_info_helper.py:45-59 | only 'album' and 'single' entries are kept; ids, years and types follow the kept entries in order and have equal length; `total_tracks` is the last kept entry's count, or `[]` when none was kept; a kept date without a year raises |
| ArtistInfoHelper.GetArtistReleaseDates | artist_info_helper.py:45-59 | the loop computes `ReleaseDates` |
| ArtistInfoHelper.Summarise | artist_info_helper.py:113-131 | with releases: first is the earliest year, last the latest, num the count, so first ≤ last and num ≥ 1; without: −1, −1, 0, 0 |
| ArtistInfoHelper.AppendKeepsAligned | artist_info_helper.py:100-131 | an append that raises nothing adds one value under every kept key, so the record stays aligned and 'ids' grows by one |
| ArtistInfoHelper.WithoutReleases | artist_info_helper.py:112 | with no release key kept, the catalogue is not asked and its outcome changes nothing |
| ArtistInfoHelper.MissingKeepsAligned | artist_info_helper.py:133-151 | `append_missing_info` adds one value under every kept key |
| ArtistInfoHelper.NoReleasesVersusMissing | artist_info_helper.py:123-151 | a found artist without releases records num_releases 0, a missing artist −1 |
| ArtistInfoHelper.ArtistInfoDict.AppendArtistInfo | artist_info_helper.py:100-131 | the new data is the old data extended under the kept keys by the artist's values (lowercased name, genres joined with ', ', release summary); the error is that of a release date that does not parse |
| ArtistInfoHelper.ArtistInfoDict.AppendMissingInfo | artist_info_helper.py:133-151 | the new data is the old data extended by id 'missing', the lowercased name, genres 'missing' and −1 for every number |
| ArtistInfoHelper.ArtistInfoDict.CheckEqualLength | artist_info_helper.py:93-98 | passes exactly when the record is aligned; otherwise the `sys.exit` this file never imports raises `NameError` |
| ArtistInfoHelper.NewArtistInfoDict | artist_info_helper.py:64-85 | excluding 'ids' aborts; otherwise the keys are the defaults minus the excluded, and the data holds nothing or the initial artist |
| TrackInfoHelper.FetchBatched | track_info_helper.py:29-77 | ids go out in consecutive batches of 50 and the answers are concatenated in batch order; the alarm of 20 s per batch fires exactly when the requests and pauses run past it; with more than 40 batches a 2 s pause follows every batch, the last included |
| TrackInfoHelper.FetchPerId | track_info_helper.py:37-42 | when the service answers every id on its own, the concatenated answers are one per id, in id order |
| TrackInfoHelper.Pauses | track_info_helper.py:43-45 | no pause with 40 batches or fewer; otherwise one 2 s pause per finished batch |
| TrackInfoHelper.TrackValuesShape | track_info_helper.py:172-187 | every track key gets one value per track and no other key a value |
| TrackInfoHelper.AudioValuesShape | track_info_helper.py:189-213 | every audio key gets one value per audio entry and no other key a value |
| TrackInfoHelper.AudioValuesMissing | track_info_helper.py:191 | an empty audio entry is stored as `None` under every audio key |
| TrackInfoHelper.AllTracks | track_info_helper.py:174 | the track list is usable exactly when no entry is `None` (a `None` track makes `track['id']` raise) |
| TrackInfoHelper.InitialLengths | track_info_helper.py:113-115 | after the initial store, a track key holds one value per track and an audio key one per audio entry |
| TrackInfoHelper.InitialAlignedEmpty | track_info_helper.py:113-117 | when either input is empty nothing is stored and the record is aligned |
| TrackInfoHelper.InitialAlignedFull | track_info_helper.py:165-170 | when both inputs are non-empty, `check_equal_length` passes exactly when they have the same length |
| TrackInfoHelper.RangesWellFormed | track_info_helper.py:120-157 | `vmins` and `vmaxs` have the same keys and every minimum is at most its maximum |
| TrackInfoHelper.TrackInfoDict.AppendTrackInfo | track_info_helper.py:172-187 | a `None` entry raises before anything is stored; otherwise every present track key is extended by one value per track: 'markets' the number of markets, 'artists' the artist ids joined with ', ' |
| TrackInfoHelper.TrackInfoDict.AppendTrackAudioInfo | track_info_helper.py:189-213 | every present audio key is extended by one value per entry, `None` for an empty entry, with 'musicalkey' and 'musicalmode' from 'key' and 'mode' |
| TrackInfoHelper.TrackInfoDict.CheckEqualLength | track_info_helper.py:165-170 | passes exactly when every key's list is as long as 'ids'; otherwise exits |
| TrackInfoHelper.NewTrackInfoDict | track_info_helper.py:82-117 | excluding 'ids' exits; the initial store happens only when both inputs are non-empty; the data is `InitialData` of the kept keys |
| ArtistNamesIds.Survivors | MusicBrainz_ArtistNames_IDs.py:49-53 | the names kept are exactly the `str` entries of the column that are non-empty and bracket-free |
| ArtistNamesIds.CleanNamesSound | MusicBrainz_ArtistNames_IDs.py:49-56 | every cleaned name is lowercase, non-empty, bracket-free, and the lowercasing of a name in the column |
| ArtistNamesIds.SurvivorsDistinct | MusicBrainz_ArtistNames_IDs.py:49-50 | the dedupe runs on the names as stored, so the survivors are distinct before lowercasing |
| ArtistNamesIds.CleanNamesPrefix | MusicBrainz_ArtistNames_IDs.py:49-54 | cleaning a prefix of the column gives a prefix of the cleaned list: order of first occurrence |
| ArtistNamesIds.CaseVariantsRepeat | MusicBrainz_ArtistNames_IDs.py:50-54 | "ABBA" and "abba" both survive the dedupe and come out as "abba" twice |
| ArtistNamesIds.LowerCells | MusicBrainz_ArtistNames_IDs.py:64 | lowering a chunk fails with `AttributeError` exactly when a field is not a string; otherwise it holds exactly the lowercased names of the chunk |
| ArtistNamesIds.ScanChunks | MusicBrainz_ArtistNames_IDs.py:63-68 | the chunk loop: the matches are exactly the lowercased candidates named in the chunks scanned, as many as the distinct hits of each chunk added up; the chunks scanned are exactly those `ScanEnd` gives |
| ArtistNamesIds.ScanStop | MusicBrainz_ArtistNames_IDs.py:63-68 | the scan ends at the first chunk that holds a non-string or after which the matches are as many as the candidates: every earlier chunk holds strings only and leaves fewer matches, and only running out of chunks ends it otherwise |
| ArtistNamesIds.GetNamesAlreadyInFile | MusicBrainz_ArtistNames_IDs.py:58-71 | an absent file gives `[]` with nothing scanned; a reader error is passed on; otherwise the result is `ScanChunks` over chunks of 1000, reading the chunks `ScanEnd` gives |
| ArtistNamesIds.ScannedNamesInLedger | MusicBrainz_ArtistNames_IDs.py:63-66 | every match reported is a name in the ledger |
| ArtistNamesIds.PopNew | MusicBrainz_ArtistNames_IDs.py:89-93 | names are popped from the end; the result is the first n popped names not saved, in pop order; running out is an `IndexError` and leaves the list empty |
| ArtistNamesIds.SavedMatches | MusicBrainz_ArtistNames_IDs.py:58-71 | the scan of one ledger raises exactly when the ledger exists and its 'names' column does not read or a chunk read holds a non-string; otherwise its matches are exactly the lowercased candidates named in the chunks read |
| ArtistNamesIds.OnlyNewNames | MusicBrainz_ArtistNames_IDs.py:73-96 | an absent missing or deep-missing ledger is a `NameError`, and a scan that raises ends the call; otherwise `saved` holds exactly the names some scan of the three ledgers reports, and the result is exactly n names, none of them saved, popped from the end, or `IndexError` when fewer than n new names exist |
| ArtistNamesIds.Sample | MusicBrainz_ArtistNames_IDs.py:103 | the sample has one name fewer than the list; an empty list is a `ValueError` |
| ArtistNamesIds.SampleDropsOne | MusicBrainz_ArtistNames_IDs.py:103 | positions drawn without replacement miss exactly one position: one name is always dropped |
| ArtistNamesIds.SampleArtistNames | MusicBrainz_ArtistNames_IDs.py:98-105 | n names of the sample, none of them reported by a scan of the id, missing or deep-missing ledger; an empty list raises `ValueError` |
| ArtistNamesIds.ResolveNames | MusicBrainz_ArtistNames_IDs.py:117-122 | each name of the batch adds its id to the ids or itself to the missing names, in order |
| ArtistNamesIds.ResolveBatches | MusicBrainz_ArtistNames_IDs.py:112-130 | the run times out exactly when some batch runs past the alarm; otherwise ids and missing names follow the names in order and a 30 s pause follows each batch that differs from the final one |
| ArtistNamesIds.RetrieveArtistIds | MusicBrainz_ArtistNames_IDs.py:107-132 | batches of 100; a timeout exits; otherwise the ids found and the names not found, both in name order |
| ArtistNamesIds.TimesOutSome | MusicBrainz_ArtistNames_IDs.py:114-130 | the run aborts exactly when some batch's lookups take longer than the 600 s alarm |
| ArtistNamesIds.DistinctBatchesPause | MusicBrainz_ArtistNames_IDs.py:125-127 | when no earlier batch equals the final one, there is one pause fewer than batches |
| ArtistNamesIds.RepeatedBatchNoPause | MusicBrainz_ArtistNames_IDs.py:125-127 | a batch equal to the final one takes no pause: 200 copies of one name give no pause at all |
| ArtistNamesIds.FoundNamesMatchIds | MusicBrainz_ArtistNames_IDs.py:137-140 | dropping the missing names leaves exactly the names found, as many as the ids |
| ArtistNamesIds.SaveArtistIds | MusicBrainz_ArtistNames_IDs.py:134-154 | a timeout exits; otherwise the found names are paired in order with their ids in the id ledger and the missing names go to the missing ledger, each with a header only when the file is created |
| ArtistNamesIds.MissingLedgerUnreadable | MusicBrainz_ArtistNames_IDs.py:148-154 | a missing ledger created by `save_artist_ids` has no 'names' column: reading it with `usecols=['names']` raises `ValueError`, and `['names']` raises `KeyError` |
| ArtistNamesIds.IntendedMissingLedgerReadable | MusicBrainz_ArtistNames_IDs.py:190-191 | a missing ledger written under 'names' reads back through 'names' as the names written |
| ArtistNamesIds.NullNameReadsAsNan | MusicBrainz_ArtistNames_IDs.py:140-142 | a name "null" is written to the ledger and read back as NaN, which has no `lower` |
| ArtistNamesIds.LookupAll | MusicBrainz_ArtistNames_IDs.py:195-202 | each processed name goes to exactly one of found (with its id) or deep-missing, in order |
| ArtistNamesIds.DeepPassFacts | MusicBrainz_ArtistNames_IDs.py:185-230 | the pass reports exactly the number of names processed, and the rewritten missing ledger is the old one minus every row naming a processed name, in the old order |
| ArtistNamesIds.DeepPassSkipsEmptyIds | MusicBrainz_ArtistNames_IDs.py:205 | when no processed name is found, the id ledger is left as it was |
| ArtistNamesIds.DeepPass | MusicBrainz_ArtistNames_IDs.py:185-230 | the pass over the first `num_to_scrape` missing names computes `DeepPassResult` |
| ArtistNamesIds.UntilIdleCounts | MusicBrainz_ArtistNames_IDs.py:232-239 | at most 100 passes; every count but the last is positive, and a run of fewer than 100 passes ends with a pass that processed nothing |
| ArtistNamesIds.RepeatUntilIdle | MusicBrainz_ArtistNames_IDs.py:232-239 | the loop computes `UntilIdle` over 100 rounds, with a 30 s pause after each pass that processed something |
| ArtistNamesIds.ExtendDeepscrapedMissingIds | MusicBrainz_ArtistNames_IDs.py:232-239 | the same loop over passes of 100 names on the configured ledgers |
| Deepscrape.RunRounds | MusicBrainz_ArtistNames_IDs-deepscrape.py:86-90 | the driver computes `AfterRounds` over exactly 100 passes, whatever each pass returns; a pass that raises ends it early; one 30 s pause per completed pass |
| Deepscrape.RunScript | MusicBrainz_ArtistNames_IDs-deepscrape.py:86-90 | the script is that driver over the pass on the hard-coded ledgers with `num_to_scrape=100`; a run that ends normally pauses 100 times |
| Deepscrape.EmptyLedgerPassKeepsMissing | MusicBrainz_ArtistNames_IDs-deepscrape.py:46-83 | a pass over a missing ledger holding only its header succeeds, processes nothing and leaves that ledger as it was, so the driver runs on |
| ArtistNamesAnalysis.RemoveDuplicatesPreserveOrder | ArtistNames_analysis.py:70-72 | the set-guarded comprehension keeps the first occurrence of every element, in order: the same elements, each once |
| ArtistNamesAnalysis.FileNo | ArtistNames_analysis.py:48 | a file name whose last `_` field before the first `.` is no integer raises `ValueError` |
| ArtistNamesAnalysis.FileOrder | ArtistNames_analysis.py:47-49 | the files come by file number, equal numbers by name; the order is a permutation of the listing, and it raises `ValueError` exactly when some number does not parse |
| ArtistNamesAnalysis.SortedNamesInOrder | ArtistNames_analysis.py:49 | dropping the numbers from sorted (number, name) tuples leaves the names in file order |
| ArtistNamesAnalysis.SortPairs | ArtistNames_analysis.py:49 | `sorted` of the (number, name) pairs: sorted and a permutation of its input |
| ArtistNamesAnalysis.SortedUnique | ArtistNames_analysis.py:49 | two sorted permutations of the same pairs are equal, so the order does not depend on the listing's order |
| ArtistNamesAnalysis.ExtendFromFiles | ArtistNames_analysis.py:51-53 | the loop concatenates the pickled lists in file order |
| ArtistNamesAnalysis.LoadArtistNames | ArtistNames_analysis.py:46-53 | reading the listed pickles in numeric order gives their concatenation; a bad file number raises `ValueError` |
| ArtistNamesAnalysis.LoadedFromEveryFile | ArtistNames_analysis.py:46-53 | a name is loaded exactly when some listed pickle holds it |
| ArtistNamesAnalysis.CleanNames | ArtistNames_analysis.py:55-60 | the cleaned names are the distinct present, non-empty, bracket-free names of the raw list |
| ArtistNamesAnalysis.CleanArtistNames | ArtistNames_analysis.py:55-62 | the cleaning statements compute `CleanNames` |
| ArtistNamesAnalysis.CaseVariantsKept | ArtistNames_analysis.py:55-60 | names differing only in case are both kept: this cleaning does not lower-case |
| ArtistNamesAnalysis.Sample | ArtistNames_analysis.py:64-66 | no sample size keeps every name; `random.sample` raises `ValueError` exactly for a size below zero or above the count; otherwise that many names, drawn from the list, distinct when the list is |
| ArtistNamesAnalysis.GetArtistSpotifyIds | ArtistNames_analysis.py:74-96 | more than 50 `' OR '` parts raise `ValueError`; otherwise the ids of the hits whose lower-cased name occurs in the lower-cased query, in hit order, or `None` exactly when no hit does |
| ArtistNamesAnalysis.NoExactHits | ArtistNames_analysis.py:86-93 | the kept hits are empty exactly when no hit's name occurs in the query |
| ArtistNamesAnalysis.QueryArtistIds | ArtistNames_analysis.py:155-158 | one query's contribution: the exact-match ids, none for `None`, `ValueError` for an over-long query |
| ArtistNamesAnalysis.SearchQueries | ArtistNames_analysis.py:154-158 | the ids of all queries in order; it raises exactly when some query has more than 50 parts |
| ArtistNamesAnalysis.FillFacts | ArtistNames_analysis.py:144-146 | the inner loop pops names while the query is within 200 characters: it stops over the limit or out of names, its query is the start plus the popped names' pieces |
| ArtistNamesAnalysis.StepFacts | ArtistNames_analysis.py:141-152 | one outer turn consumes no name exactly when the first name does not fit; otherwise its query is the rendering of the names it consumed, within 200 characters, and a put-back name is still waiting |
| ArtistNamesAnalysis.LongNameNoProgress | ArtistNames_analysis.py:141-150 | a first name too long to fit is put back and nothing is consumed, so the source's loop never ends |
| ArtistNamesAnalysis.StepRestFits | ArtistNames_analysis.py:141-152 | when every name fits, a turn consumes at least one name and the rest still fit |
| ArtistNamesAnalysis.Packing | ArtistNames_analysis.py:140-152 | the outer loop's queries: at most one per name, and at least one when there are names |
| ArtistNamesAnalysis.PackingShape | ArtistNames_analysis.py:140-152 | every query covers a non-empty group, is that group's rendering, is within 200 characters, and a put-back name is followed by another query |
| ArtistNamesAnalysis.PackingConsumesAll | ArtistNames_analysis.py:140-152 | the groups of the queries are the names, in order, each once |
| ArtistNamesAnalysis.PackedQueryPrefix | ArtistNames_analysis.py:142 | every query starts with `artists:` |
| ArtistNamesAnalysis.TrimmedQueryRemnant | ArtistNames_analysis.py:147-150 | a query whose last name was put back ends in `' O'`: the trim removes two characters too few |
| ArtistNamesAnalysis.ExactQueries | ArtistNames_analysis.py:147-150 | with the trim corrected to six characters, every query is `artists:` followed by its names, quoted and joined by `' OR '` |
| ArtistNamesAnalysis.ArtistNames.PopIntoQuery | ArtistNames_analysis.py:142-146 | the inner loop pops from the front of the object's names what `Fill` consumes and leaves the rest |
| ArtistNamesAnalysis.ArtistNames.NextQuery | ArtistNames_analysis.py:141-152 | one outer turn on the object: its query and remaining names are those of `Step` with the source's trim of four |
| ArtistNamesAnalysis.ArtistNames.PackQueries | ArtistNames_analysis.py:139-152 | the outer loop empties the names and returns the queries of `Packing` |
| ArtistNamesAnalysis.ArtistNames.GetArtistInfo | ArtistNames_analysis.py:122-191 | packs the names, searches every query, and returns the empty record (the filling code is commented out) with the ids found; `ValueError` exactly when a query is too long |
| ArtistNamesAnalysis.GetArtistNumTracks | ArtistNames_analysis.py:110-120 | the track total over batches of 20 albums |
| ArtistNamesAnalysis.NumTracksIsSum | ArtistNames_analysis.py:114-120 | batching by 20 does not change the total: it is the sum of every album's track count |
| ArtistNamesAnalysis.EmptyRecord | ArtistNames_analysis.py:127-137 | the record has exactly the nine keys, each with an empty list |
| ArtistNamesAnalysis.Kept | ArtistNames_analysis.py:206-207 | the positions a mask keeps: increasing, in range, and exactly those whose row passes |
| ArtistNamesAnalysis.Where | ArtistNames_analysis.py:207 | indexing every column by the same positions keeps the keys and the columns aligned |
| ArtistNamesAnalysis.Stage | ArtistNames_analysis.py:206-207 | one mask stage keeps the keys and alignment, shrinks or keeps the height, and every kept row passes the mask |
| ArtistNamesAnalysis.StageStage | ArtistNames_analysis.py:206-221 | two successive stages keep exactly what one stage with the conjunction keeps |
| ArtistNamesAnalysis.Stages | ArtistNames_analysis.py:206-221 | the stages in turn keep the keys and the alignment and never add rows |
| ArtistNamesAnalysis.AsWrittenRaisesOnEmpty | ArtistNames_analysis.py:206-221 | as written, the stages raise `IndexError` exactly when a stage's input has no rows, and otherwise give `Stages` |
| ArtistNamesAnalysis.ConstructedRecordRaises | ArtistNames_analysis.py:127-137 | the record every constructed object carries has no rows, so each of the four filters raises `IndexError` on it |
| ArtistNamesAnalysis.CleanIsOneMask | ArtistNames_analysis.py:206-221 | the three cleaning stages keep exactly the rows passing the combined test |
| ArtistNamesAnalysis.ActiveRows | ArtistNames_analysis.py:233-246 | the active artists are the rows with releases, a release in the last five years, and no hobbyist track count |
| ArtistNamesAnalysis.ActiveWithinClean | ArtistNames_analysis.py:206-246 | the active artists are the cleaned ones with a recent release |
| ArtistNamesAnalysis.FamousWithinLegacy | ArtistNames_analysis.py:254-282 | the famous legacy artists are the legacy ones with popularity over 50 |
| ArtistNamesAnalysis.ActiveLegacyDisjoint | ArtistNames_analysis.py:233-261 | no artist is both active and legacy, and one whose last release is exactly five years back is neither |
| ArtistNamesAnalysis.ArtistNames.CleanUnproductiveArtists | ArtistNames_analysis.py:198-223 | the record becomes the as-written cleaning stages' result, or stays as it was when they raise |
| ArtistNamesAnalysis.ArtistNames.GetActiveArtists | ArtistNames_analysis.py:225-248 | `IndexError` exactly when the first two stages leave no rows; otherwise the active stages over the record |
| ArtistNamesAnalysis.ArtistNames.GetLegacyArtists | ArtistNames_analysis.py:250-263 | `IndexError` exactly when the first stage leaves no rows; otherwise the legacy stages over the record |
| ArtistNamesAnalysis.ArtistNames.GetFamousLegacyArtists | ArtistNames_analysis.py:265-284 | `IndexError` exactly when the first stage leaves no rows; otherwise the famous-legacy stages over the record |
| ArtistNamesAnalysis.SampledNamesFit | ArtistNames_analysis.py:55-66 | when every pickled name fits a query, so does every sampled name |
| ArtistNamesAnalysis.NewArtistNames | ArtistNames_analysis.py:32-68 | construction loads, cleans and samples the names, then packs and searches them; it raises `ValueError` exactly when `ConstructionFails`: a file number does not parse, the sample size is negative or larger than the cleaned names, or a packed query holds more than 50 names; otherwise the object ends with no names and the empty record |
| ArtistTrackInfo.WorkSet | MusicBrainz_artist_track_info.py:54-56 | every id to scrape is in the id ledger and not in the done ledger, in ledger order; with no `num_to_scrape` every such id is scraped; with `num_to_scrape` ≥ 0 exactly the first min(num, remaining) of them |
| ArtistTrackInfo.WorkSetShrinks | MusicBrainz_artist_track_info.py:54 | ids added to the done ledger only shrink an untruncated work set, and none of them is scraped again |
| ArtistTrackInfo.ArtistInfoStage | MusicBrainz_artist_track_info.py:43-68 | the stage succeeds exactly when both 'ids' columns read, and fails only with a reader error; then the info ledger alone gains the rows built for the work set, with no header |
| ArtistTrackInfo.ColumnIsField | MusicBrainz_artist_track_info.py:75 | a column read by name is the field at that name's first position in every row |
| ArtistTrackInfo.KeptRowsAreWorkList | MusicBrainz_artist_track_info.py:80-95 | `isin` over the ids to scrape keeps exactly the info rows whose id the listener ledger lacks, and their ids are the work list, in order |
| ArtistTrackInfo.ListenerRowsFit | MusicBrainz_artist_track_info.py:94-96 | the new listener rows are as many as the kept rows; their 'monthly_listeners' column is the scraped counts; every row keeps its own id and every other field |
| ArtistTrackInfo.MonthlyListenersAppendsNew | MusicBrainz_artist_track_info.py:70-97 | when every page reads, the listener ledger gains exactly the new rows, with no header, and no other file changes |
| ArtistTrackInfo.GetArtistMonthlyListeners | MusicBrainz_artist_track_info.py:70-97 | the scrape loop, one count per id to scrape in order, computes `MonthlyListenersStage` |
| ArtistTrackInfo.MissingFeature | MusicBrainz_artist_track_info.py:107 | `df[req_features]` raises for a required feature the ledger lacks, and for no other; no feature missing means none is reported |
| ArtistTrackInfo.IdsFirstAt | MusicBrainz_artist_track_info.py:113-116 | after `set_index('ids')` and `reset_index()` each field sits at its moved position with its own value |
| ArtistTrackInfo.FilledRowAt | MusicBrainz_artist_track_info.py:115 | `combine_first` fills only an empty genres field, with the bio genres; every other field keeps its value |
| ArtistTrackInfo.Backfill | MusicBrainz_artist_track_info.py:111-116 | the backfilled ledger keeps its row count and has its columns with 'ids' moved first; each row is the old row with its id moved first and its genres taken from the first bio row with its id only where its own are empty |
| ArtistTrackInfo.Cleaned | MusicBrainz_artist_track_info.py:104-120 | it succeeds exactly when the listeners ledger reads with every required column and, when 'genres' is required, the bio ledger reads with 'ids' and 'genres' and the ledger has 'ids'; the frame is then the complete rows (no empty field and no −1 in a required column) of the ledger, with the bio genres filled in first when 'genres' is required |
| ArtistTrackInfo.CleanFrame | MusicBrainz_artist_track_info.py:119-120 | `dropna` then dropping −1 rows keeps the columns and keeps a row exactly when it is a complete row of the input |
| ArtistTrackInfo.CleanStage | MusicBrainz_artist_track_info.py:99-125 | the stage succeeds exactly when the cleaning does, and then the cleaned ledger is rewritten with a header and nothing else changes |
| ArtistTrackInfo.CleanWithoutGenres | MusicBrainz_artist_track_info.py:111-120 | without 'genres' among the required features the bio ledger plays no part: the cleaned rows are the complete rows of the ledger, in order |
| ArtistTrackInfo.GenresNeverOverwritten | MusicBrainz_artist_track_info.py:115-120 | genres already in the ledger are never replaced by bio genres, and a row with no genres from either is dropped |
| ArtistTrackInfo.TrackWorkAligned | MusicBrainz_artist_track_info.py:145-149 | the ids and names to look up have one length and zip to the first `num_to_scrape` (id, name) pairs whose id is not done |
| ArtistTrackInfo.TrackPairsFromLedger | MusicBrainz_artist_track_info.py:145-149 | every (id, name) pair looked up is a pair of the cleaned ledger and its id is not yet in the track ledger |
| ArtistTrackInfo.ThreeColumnRows | MusicBrainz_artist_track_info.py:162 | the three-column frame has one row per id, row i being the i-th id, name and track |
| ArtistTrackInfo.RandomTrackStage | MusicBrainz_artist_track_info.py:127-166 | no cleaned ledger means no file changes; a run that ends normally leaves the track ledger there |
| ArtistTrackInfo.RandomTracksAppended | MusicBrainz_artist_track_info.py:139-166 | when every lookup answers, the track ledger gains one row per id to scrape, its name and its own track, with a header only when the ledger is created |
| ArtistTrackInfo.GetArtistRandomTrackIds | MusicBrainz_artist_track_info.py:127-166 | the lookup loop, one track per id in order, computes `RandomTrackStage` |
| ArtistTrackInfo.Present | MusicBrainz_artist_track_info.py:180 | `x == x` drops exactly the NaN entries |
| ArtistTrackInfo.TrackIdsToScrape | MusicBrainz_artist_track_info.py:178-192 | a repeated present track id means no lookup (the logged error); otherwise the ids to look up are the work set of the present track ids against the scraped ones, cut to `num_to_scrape`: distinct, not NaN, in the track-id ledger and not yet scraped |
| ArtistTrackInfo.WorkSetDistinct | MusicBrainz_artist_track_info.py:181-192 | the work set of distinct ids is distinct |
| ArtistTrackInfo.TrackInfoStage | MusicBrainz_artist_track_info.py:168-201 | a reader error while choosing the ids is passed on; a repeated id leaves the files as they were; a build that raises (the exit after an alarm, the `TypeError` of a `None` track) writes nothing and passes its error on; otherwise the info ledger alone gains the built rows, with no header |
| ArtistTrackInfo.GenreInfo | MusicBrainz_artist_track_info.py:206 | reading with `usecols` succeeds exactly when the ledger reads and has an 'ids' column; a missing column is `ValueError` |
| ArtistTrackInfo.NullGenreIds | MusicBrainz_artist_track_info.py:207 | the id of every row without genres is listed, and no more ids than rows |
| ArtistTrackInfo.NullGenreIdsFromRows | MusicBrainz_artist_track_info.py:207 | every id listed is the id of some row whose genres are missing |
| ArtistTrackInfo.Without | MusicBrainz_artist_track_info.py:211-218 | an absent ledger removes nothing; a present one removes exactly its ids; a ledger that does not read is an error |
| ArtistTrackInfo.BioCandidates | MusicBrainz_artist_track_info.py:206-222 | the candidates are ids without genres found in neither bio ledger; with no `num_to_scrape` every such id is a candidate |
| ArtistTrackInfo.Pairs | MusicBrainz_artist_track_info.py:230 | one (id, name) pair per ledger row |
| ArtistTrackInfo.NameOf | MusicBrainz_artist_track_info.py:230 | `.values[0]` raises `IndexError` exactly when no row has the id (a NaN id matches none); otherwise it is the name of the first row with that id |
| ArtistTrackInfo.CandidateNamed | MusicBrainz_artist_track_info.py:207-230 | a candidate's name lookup fails exactly when the candidate is NaN |
| ArtistTrackInfo.BatchResult | MusicBrainz_artist_track_info.py:228-240 | a batch is processed exactly when every id's name is found, and fails only with `IndexError` |
| ArtistTrackInfo.EntryOf | MusicBrainz_artist_track_info.py:231-240 | an id gets a found row exactly when its bio names a genre, and that row starts with the id |
| ArtistTrackInfo.FoundAndMissing | MusicBrainz_artist_track_info.py:229-240 | the found rows carry exactly the ids with genres, in order, and found plus missing is one per id |
| ArtistTrackInfo.BatchPartition | MusicBrainz_artist_track_info.py:229-240 | a processed batch splits into found rows for the ids with genres and missing ids for the others, one entry per id |
| ArtistTrackInfo.BatchLedgersKeep | MusicBrainz_artist_track_info.py:242-256 | a batch's appends touch only the two bio ledgers |
| ArtistTrackInfo.BatchLedgersTwice | MusicBrainz_artist_track_info.py:242-256 | two batches written one after the other equal the joined batches written once: headers come only with the first write |
| ArtistTrackInfo.BatchResultConcat | MusicBrainz_artist_track_info.py:227-240 | two batches are processed exactly when their join is, and the join's lists are the two batches' lists joined |
| ArtistTrackInfo.BioStep | MusicBrainz_artist_track_info.py:228-258 | a batch that fails stops the run with `IndexError` and changes nothing; one that is processed is followed by one pause |
| ArtistTrackInfo.BioFrom | MusicBrainz_artist_track_info.py:227-258 | the batch loop: a stopped run stays stopped; a run that ends normally pauses once per batch |
| ArtistTrackInfo.BioStepKeeps | MusicBrainz_artist_track_info.py:242-256 | a batch writes only the two bio ledgers |
| ArtistTrackInfo.BioFromKeeps | MusicBrainz_artist_track_info.py:227-258 | the batch loop writes only the two bio ledgers |
| ArtistTrackInfo.BioFromWrites | MusicBrainz_artist_track_info.py:227-258 | the loop over batches ends normally exactly when the joined batches are processed, and then writes what one write of the joined lists writes |
| ArtistTrackInfo.BioStage | MusicBrainz_artist_track_info.py:211-258 | candidates that cannot be read stop the stage before any batch, with nothing written |
| ArtistTrackInfo.GenresFromBio | MusicBrainz_artist_track_info.py:203-258 | a listener ledger that cannot be read stops the stage with nothing written; otherwise the stage is that of the ledger read |
| ArtistTrackInfo.CandidatesNamed | MusicBrainz_artist_track_info.py:207-230 | every candidate's name is found exactly when no candidate is NaN |
| ArtistTrackInfo.BioChunksOutcome | MusicBrainz_artist_track_info.py:226-258 | over batches of 100, the run ends normally exactly when all candidates are processed; then the two bio ledgers gain all found rows and missing ids, with one pause per batch |
| ArtistTrackInfo.BioStageOutcome | MusicBrainz_artist_track_info.py:211-258 | the stage stops, with `IndexError`, exactly when a candidate is NaN; no candidates means no file is touched; otherwise the outcome of `BioChunksOutcome` |
| ArtistTrackInfo.AllNamed | MusicBrainz_artist_track_info.py:229-240 | when every id of a batch is named, the batch's lists are those of its (id, name) pairs |
| ArtistTrackInfo.FirstUnnamed | MusicBrainz_artist_track_info.py:230 | the first failing name lookup fails the batch with its error |
| ArtistTrackInfo.ClassifyOne | MusicBrainz_artist_track_info.py:231-240 | one id adds its row, with the genres joined by commas, to the found rows exactly when its bio names a genre, and adds itself to the missing ids exactly when it names none (`None` or an empty list) |
| ArtistTrackInfo.ClassifyStep | MusicBrainz_artist_track_info.py:229-240 | classifying one more id keeps the loop's two lists equal to those of the ids so far |
| ArtistTrackInfo.ClassifyBatch | MusicBrainz_artist_track_info.py:228-240 | the inner loop computes `BatchResult` |
| ArtistTrackInfo.RunBioBatches | MusicBrainz_artist_track_info.py:227-258 | the outer loop computes `BioFrom` |
| ArtistTrackInfo.GenerateArtistGenresFromBio | MusicBrainz_artist_track_info.py:203-258 | the whole function computes `GenresFromBio` |
| ArtistInfo.PathsDistinct | MusicBrainz_artist_info.py:33-46 | the five ledgers under the hard-coded output directory are five different files |
| ArtistInfo.GetArtistInfo | MusicBrainz_artist_info.py:39-63 | succeeds exactly when both 'ids' columns read; then the rows built for the ids of artist_ids.csv that Spotify_artist_info.csv lacks, cut to `num_to_scrape`, are appended there without a header, and nothing else changes |
| ArtistInfo.MonthlyListeners | MusicBrainz_artist_info.py:65-92 | a run that ends normally only appends to the listener ledger: every other file and every old line are kept |
| ArtistInfo.ListenersForNewIds | MusicBrainz_artist_info.py:69-92 | when every page reads, the listener ledger gains one line per info row whose id it lacked, in order, with that id and the count scraped for it |
| ArtistInfo.GetArtistMonthlyListeners | MusicBrainz_artist_info.py:65-92 | the scrape loop computes `MonthlyListeners` |
| ArtistInfo.TrackIdRows | MusicBrainz_artist_info.py:122 | the two-column frame exists exactly when the lists have one length, and row i is the i-th id and track |
| ArtistInfo.RandomTrackIds | MusicBrainz_artist_info.py:94-123 | without the listener ledger the stage raises `FileNotFoundError`; a run that ends normally only appends to the track ledger |
| ArtistInfo.RandomTracksHeaderless | MusicBrainz_artist_info.py:98-123 | when every lookup answers, the track ledger gains one line per listener-ledger id it lacked, with that id and its own track, and never a header, even when it is created |
| ArtistInfo.CreatedTrackLedgerHasNoHeader | MusicBrainz_artist_info.py:122-123 | a run that creates the track ledger leaves a first data row where the `ids,track_ids` header should be |
| ArtistInfo.GetArtistRandomTrackIds | MusicBrainz_artist_info.py:94-123 | the lookup loop computes `RandomTrackIds` |
| ArtistInfo.GenerateTracks | MusicBrainz_artist_info.py:125-158 | succeeds exactly when the track ids can be chosen and their build does not raise; a repeated id leaves every file as it was; otherwise only the track-info ledger is appended to, with the rows built for the work set of the present track ids against the scraped ones |
| ArtistInfo.CreatedTrackInfoLedgerHasNoHeader | MusicBrainz_artist_info.py:153-158 | a run that creates the track-info ledger leaves exactly the stored built rows, the first of them where a header should be, because the append uses `header=False` |
| EditorialPlaylistsInfo.LastPageUnread | Editorial_playlists_info.py:48-56 | the pages read are all but the last: the last page is fetched, its `next` is empty, and its items are never looked at |
| EditorialPlaylistsInfo.KeepQualifying | Editorial_playlists_info.py:49-55 | the loop over a page's items keeps exactly the playlists owned by 'spotify' and public, in order |
| EditorialPlaylistsInfo.GetCategoryPlaylistsForMarket | Editorial_playlists_info.py:84-97 | the playlists returned are the qualifying ones on every page but the last, in order |
| EditorialPlaylistsInfo.UniqueByFacts | Editorial_playlists_info.py:59-66 | `np.unique(..., return_index=True)`: the ids come out strictly ascending, every id read is there, and each row is the first record read with its id |
| EditorialPlaylistsInfo.StoreAvailableSpotifyPlaylists | Editorial_playlists_info.py:39-67 | the table written is the `np.unique` table of the qualifying playlists on every page but the last |
| EditorialPlaylistsInfo.StoredPlaylists | Editorial_playlists_info.py:44-67 | every stored playlist qualifies and was read; the ids are distinct and ascending; every qualifying playlist read has its id stored |
| EditorialPlaylistsInfo.AppendCategories | Editorial_playlists_info.py:76-78 | the loop over a page of categories appends their ids and names side by side |
| EditorialPlaylistsInfo.GetCategoryIdsForMarket | Editorial_playlists_info.py:69-82 | the ids and names of the categories on every page but the last, side by side |
| EditorialPlaylistsInfo.RecheckChangesNothing | Editorial_playlists_info.py:115 | the second owner and public test keeps every playlist the first one kept |
| EditorialPlaylistsInfo.MarketEntriesSnoc | Editorial_playlists_info.py:111-122 | one more category adds exactly its own entries, after those of the categories before it |
| EditorialPlaylistsInfo.TagsOfIsMap | Editorial_playlists_info.py:114-122 | the tagging loop's entries are the qualifying playlists, each tagged with the category |
| EditorialPlaylistsInfo.TagQualifying | Editorial_playlists_info.py:114-122 | the tagging loop appends the qualifying playlists of one category, in order, each tagged with the category's id and name |
| EditorialPlaylistsInfo.MarketFileName | Editorial_playlists_info.py:134-135 | `split(".csv")[0]` drops exactly the extension: the market file is the day's file name with `_<market>` before `.csv` |
| EditorialPlaylistsInfo.StoreSpotifyPlaylistSelectionForMarket | Editorial_playlists_info.py:99-137 | the file is the market's file, and the table is the `np.unique` table of the tagged playlists of every category read |
| EditorialPlaylistsInfo.CategoryEntriesFrom | Editorial_playlists_info.py:113-122 | every entry recorded for a category is a qualifying playlist read for it, tagged with that category |
| EditorialPlaylistsInfo.MarketEntriesFrom | Editorial_playlists_info.py:111-122 | every entry of a market is a qualifying playlist read for one of its categories, tagged with that category |
| EditorialPlaylistsInfo.MarketTable | Editorial_playlists_info.py:124-133 | a market's table has one row per playlist id, each a qualifying playlist of one of the market's categories |
| EditorialPlaylistsInfo.Credited | Editorial_playlists_info.py:163-168 | the artist ids appended before a null artist raises the caught `TypeError`: a prefix of the track's artists, stopped only by a null |
| EditorialPlaylistsInfo.Last24Snoc | Editorial_playlists_info.py:159-168 | one more item adds exactly its own artist and track ids |
| EditorialPlaylistsInfo.CreditTrack | Editorial_playlists_info.py:164-166 | the inner loop appends the credited artists and, beside each, the track's id |
| EditorialPlaylistsInfo.GetArtistsLast24hrs | Editorial_playlists_info.py:152-170 | the loops compute `Last24`: the credited artists of the items added less than a day ago, each beside its track's id |
| EditorialPlaylistsInfo.Last24Aligned | Editorial_playlists_info.py:158-170 | the two lists have one length, and each artist id is beside the id of a recent track that credits it |
| EditorialPlaylistsInfo.GatherAligned | Editorial_playlists_info.py:178-193 | the artist, track and playlist lists have one length, and each artist was found, among the tracks of the last day, in a named playlist the name tests did not skip |
| EditorialPlaylistsInfo.Pickle1000ArtistsLast24hrs | Editorial_playlists_info.py:172-217 | the statements compute `Pickle1000`: the track file, the count line and the pickled dictionary |
| EditorialPlaylistsInfo.SelectedArtists | Editorial_playlists_info.py:203-209 | the dictionary's lists have one length and distinct ids; with at most 1000 distinct artists they are all there, ascending; otherwise exactly 1000; each keeps the first playlist it was found in |
| EditorialPlaylistsInfo.UniqueFirst | Editorial_playlists_info.py:203-204 | the first index of a value is where it first occurs |
| EditorialPlaylistsInfo.PickledArtists | Editorial_playlists_info.py:178-217 | the pickled dictionary is the selection of the gathered artists, with each artist's first playlist |
| EditorialPlaylistsInfo.CountBeforeSample | Editorial_playlists_info.py:211-214 | the count file's new last line is the day and the number of distinct artists before sampling, which may exceed what is pickled |
| EditorialPlaylistsInfo.HeaderEveryRun | Editorial_playlists_info.py:196-200 | the track file is opened to append and gets its header every run: two runs on one day leave two header lines |
| EditorialPlaylistsInfo.TrackFileApart | Editorial_playlists_info.py:196-213 | the day's track file and the count file are different files |
| EditorialPlaylistsInfo.GuardPaths | Editorial_playlists_info.py:227 | the length guard needs 'ids' only when there is a key to test; with 'ids' it passes exactly when every list is as long as the ids |
| EditorialPlaylistsInfo.ListenersForPickled | Editorial_playlists_info.py:219-245 | no 'ids' raises `KeyError`; a misaligned dictionary is given up on; otherwise it succeeds exactly when every page reads and gains the counts, one per id, every other key unchanged |
| EditorialPlaylistsInfo.ScrapeMonthlyListenersForPickledArtists | Editorial_playlists_info.py:219-245 | the scrape loop computes `ListenersForPickled` |
| EditorialPlaylistsInfo.InfoForPickled | Editorial_playlists_info.py:247-268 | no 'ids' raises `KeyError`; an aligned dictionary gives what `build` makes of its ids; a misaligned one is given up on |
| EditorialPlaylistsInfo.PickleGetsPast | Editorial_playlists_info.py:205-258 | the dictionary the pickling stage writes is aligned and gets past both length guards |
| EditorialPlaylistsInfo.DictAligned | Editorial_playlists_info.py:205 | a dictionary of two equally long lists is aligned |
| EditorialPlaylistsArtistInfo.StoreAvailableSpotifyPlaylists | Editorial_playlists_artist_info.py:38-73 | this version reads the first page and then every next page, last included, and keeps every qualifying playlist in order, repeats included |
| EditorialPlaylistsArtistInfo.AllPagesRead | Editorial_playlists_artist_info.py:46-65 | its table is the other version's qualifying playlists followed by those of the last page |
| EditorialPlaylistsArtistInfo.LastPageOnlyHere | Editorial_playlists_artist_info.py:56-64 | a qualifying playlist seen only on the last page is stored here and missing from the other version's table |
| EditorialPlaylistsArtistInfo.StoreSpotifyPlaylistSelectionForMarket | Editorial_playlists_artist_info.py:75-110 | the market's file gets, for the categories of the first page, the qualifying playlists of each one's first page, tagged with the category, in order and with repeats |
| EditorialPlaylistsArtistInfo.MarketEntriesFrom | Editorial_playlists_artist_info.py:87-98 | every entry is a qualifying playlist from the first page of one of the market's categories, tagged with that category |
| EditorialPlaylistsArtistInfo.CreditArtists | Editorial_playlists_artist_info.py:135-136 | the inner loop appends the credited artists, stopping at a null artist |
| EditorialPlaylistsArtistInfo.RecentArtists | Editorial_playlists_artist_info.py:130-138 | the loop collects the credited artists of the items added less than a day ago, as the other version does |
| EditorialPlaylistsArtistInfo.GetArtistsLast24hrs | Editorial_playlists_artist_info.py:123-141 | `list(set(...))`: each credited recent artist exactly once, and no other |
| EditorialPlaylistsArtistInfo.ExclusionNarrower | Editorial_playlists_artist_info.py:149-155 | a name this version skips the other version skips too |
| EditorialPlaylistsArtistInfo.NotSkippedWithout | Editorial_playlists_artist_info.py:149-155 | a name with no 'T', 't', 'H' or 'h' is never skipped here |
| EditorialPlaylistsArtistInfo.OfficialEnteredHere | Editorial_playlists_artist_info.py:151-155 | a playlist called "official" is entered here but skipped by the other version |
| EditorialPlaylistsArtistInfo.GatherAligned | Editorial_playlists_artist_info.py:147-160 | the artist and playlist lists have one length, and each artist was found, among the tracks of the last day, in a named playlist the name tests did not skip |
| EditorialPlaylistsArtistInfo.Pickle1000ArtistsLast24hrs | Editorial_playlists_artist_info.py:143-173 | the statements compute `Pickle1000` |
| EditorialPlaylistsArtistInfo.PickledArtists | Editorial_playlists_artist_info.py:162-168 | the pickled dictionary has distinct ids beside their first playlist; all of them ascending when at most 1000, exactly 1000 otherwise |
| EditorialPlaylistsArtistInfo.PickleGetsPast | Editorial_playlists_artist_info.py:164-212 | the pickled dictionary is aligned and gets past both length guards |
| EditorialTracksInfo.DistinctIds | Editorial_tracks_info.py:52 | `list(set(...))`: each track id of the file exactly once, and no other |
| EditorialTracksInfo.ForDate | Editorial_tracks_info.py:36-61 | an existing info file means nothing changes; otherwise the day succeeds exactly when its track-id file reads and the build for its distinct ids does not raise, with the first error if not, and then only the new info file is added, holding a header and the built frame |
| EditorialTracksInfo.ForDateOnce | Editorial_tracks_info.py:43-46 | processing a day a second time changes nothing |
| EditorialTracksInfo.ForDateReadBack | Editorial_tracks_info.py:50-61 | a built frame whose rows fit its columns reads back from the new info file as those columns and rows |
| EditorialTracksInfo.DatesMembers | Editorial_tracks_info.py:66 | a date is processed exactly when some listed file name holding `track_ids_last_24hrs_` yields it |
| EditorialTracksInfo.DateRoundTrip | Editorial_tracks_info.py:41-66 | the date read off a day's track-id file name is that day |
| EditorialTracksInfo.DatesOfIdsFiles | Editorial_tracks_info.py:66 | a listing of days' track-id files yields those days, in listing order |
| EditorialTracksInfo.AllDatesFrom | Editorial_tracks_info.py:68-70 | from any date on, the run is that date's step and then the rest, an exception ending it |
| EditorialTracksInfo.GenerateTrackInfoAllDates | Editorial_tracks_info.py:63-70 | the loop over the listed dates computes `AllDates` |
| EditorialTracksInfo.AllDatesCreates | Editorial_tracks_info.py:63-70 | a run that ends normally leaves every date's info file, keeps every file that was there and changes none of them |
| EditorialTracksInfo.AllDatesDone | Editorial_tracks_info.py:43-46 | once every date's info file exists a run changes nothing |
| EditorialTracksInfo.RerunChangesNothing | Editorial_tracks_info.py:63-70 | running the stage again after a run that ended normally changes nothing |
| Ledger.AppendHeaderOnceTwice | Monthly_Listeners_webscraper.py:49-52 | two header-when-absent appends write what one such append of both batches writes: the header comes at most once, before the first batch |
| Ledger.AppendHeaderOnceCommute | MusicBrainz_artist_track_info.py:243-256 | header-when-absent appends to two different files do not interfere |
| Ledger.HeaderOnceReadBack | Monthly_Listeners_webscraper.py:49-52 | a file created by a header-when-absent append and only appended to that way reads back as one frame, every batch's rows in write order |
| Ledger.ReadBack | Editorial_tracks_info.py:61 | a file holding a header and rows of its width reads back as those columns and rows |
| Ledger.ReadUsecolOrEmpty | MusicBrainz_artist_track_info.py:139-143 | an absent ledger reads as no ids; a present one as its column, errors included |

The operations keep each script's behaviour as written, quirks included, because they model what the scripts do. The corrected members in "## Findings" are what the intended properties are proved about: the missing ledger read back through 'names', the cohort lemmas over `Stages`, the queries packed with a six-character trim, and packing over names that fit in a query alone.

## Left out

- Remote services: the `spotipy` endpoints, `musicbrainzngs`, `requests.get` and the BeautifulSoup lookup are function parameters. A `Page` is the status code and the element the lookup finds. Whatever these services do internally is not modelled.
- Wall-clock behaviour: `signal.alarm`, the SIGALRM handlers and `time.sleep`. The time a batch takes is an input, and an alarm fires exactly when that time runs past the limit. A sleep is an entry in the returned list of pauses, not a delay.
- Randomness and the clock: `random.seed`, `random.sample` and `np.random.choice` are inputs (chosen positions or a `choose` function). `datetime.now` and `strptime` in the last-day checks become the whole days since an item was added (`ageDays`).
- Logging: every `logger` call is left out, because it changes no state the scripts read.
- `__main__` drivers and `config.json` loading are left out, except for the chunk loop of `Monthly_Listeners_webscraper.py` and the 100-round loop of `MusicBrainz_ArtistNames_IDs-deepscrape.py`. Configured paths and the output directory are parameters (`Config`, `dir`).
- `extend_sample_MusicBrainz_artist_ids` (MusicBrainz_ArtistNames_IDs.py:156-183) is left out. It is only the composition of the modelled load, sample and save steps, wrapped in logging.
- Pandas and pickle I/O: a file is the list of lines it holds, and a pickle is the value it holds. `chunksize` reads are the modelled chunk loops. Quoting, escaping and column-name mangling of duplicate headers are not modelled.
- Python strings: `str.lower` lowercases ASCII letters only. `int()` accepts optional surrounding whitespace, a sign and ASCII digits. Underscores in numerals and non-ASCII digits are not modelled.
- Python sets: the order in which `list(set(...))` lists a set is the parameter `listOf`, which must list each element exactly once. The model does not fix that order.
- NaN: the empty field is the cell `Nan`. Where the scripts compare with pandas `==` or filter with `x == x`, the model has NaN equal nothing. Python's `in` on a plain list is Dafny's `in` in the model, so `Nan` is in a list that holds `Nan`. Python's answer there depends on whether the two NaNs are the same object, which is not modelled.
- Numbers: the model's `Int(1)` and `Real(1.0)` are different cells, while pandas and Python compare them equal. The audio-feature values are not modelled; only the `vmins`/`vmaxs` tables are, as reals.
- `ArtistTrackInfo.Backfill`: `combine_first` aligns on the index. With repeated ids in the bio ledger the model takes the first bio row for each id, and pandas' behaviour on a duplicate index is not modelled.
- Exception text: an error is its Python exception class (`KeyError`, `ValueError`, `IndexError`, `NameError`, an exit) without its message.
- `except TypeError or KeyError` (Editorial_playlists_info.py:167, Editorial_playlists_artist_info.py:137) catches only `TypeError`. The model's tracks always carry the fields read, so the `KeyError` that would escape is not modelled.
- `gather_artist_info_last_24hrs` (Editorial_playlists_info.py:270-287, Editorial_playlists_artist_info.py:226-243) is left out. The dictionary it merges is the pickled result of `aih.generate_artist_info_dict`, which `artist_info_helper.py` does not define, so its keys and columns are unknown; it is also not one of the modelled stages.
- `combine_existing_csvs` (Editorial_playlists_info.py:298-306) is left out. It calls `glob`, which is never imported.
- `delete_pickles` (Editorial_playlists_info.py:289-296, Editorial_playlists_artist_info.py:245-252) is left out. It only calls `os.remove` on three paths.
- `find_playlists_across_markets` (Editorial_playlists_info.py:139-150) and `store_spotify_playlist_selection_all_markets` (Editorial_playlists_artist_info.py:112-121) are left out. Each calls the modelled per-market stage once per market, with a sleep.
- artist_info-Spotify_editorial_playlists.py is not part of this model. It uses names it never defines and calls `get_artists_last_24hrs` with the wrong number of arguments.
- The scripts that only traverse an API or ingest data are not part of this model: pop_playlists.py, popularity_vs_offset.py, playlists-by-artist.py, build_MusicBrainz_names_database.py, build_artist_names_database.py and Do_ArtistNames_analysis.py.
- Referenced helpers that `artist_info_helper.py` and the scripts do not define are parameters: `aih.get_spotify_artists_info`, `generate_artist_info_dict`, `get_artist_spotify_id_deepscrape`, `get_artist_random_track_id`. The Spotify lookups and the `TrackInfoDict` they fill in `Editorial_tracks_info.py` and in the track-info stages of `MusicBrainz_artist_track_info.py` and `MusicBrainz_artist_info.py` are the parameter `build`. It returns either the built rows or the exception raised, such as the `sys.exit(1)` after an alarm (track_info_helper.py:47-49, 72-74) or the `TypeError` of a track returned as `None` (track_info_helper.py:174).
- Parallel lists: the four lists the editorial loops append to are one list of `Playlist` records. This makes their alignment hold by construction.
- ArtistNamesAnalysis.Packing: requires every name to fit in a query on its own. A longer name is popped and put straight back, so the source's loop never ends (`LongNameNoProgress` shows the step that makes no progress). Packing such input is not modelled.
- ArtistNamesAnalysis.Stages: a numpy array is a sequence of `Value`s and its dtype is not modelled. It matters only for the `IndexError` on an empty mask, which `StagesAsWritten` records.

## Findings

| source | as written | input that shows it | evidently intended | confidence | as-written member | corrected member |
|---|---|---|---|---|---|---|
| MusicBrainz_ArtistNames_IDs.py:148 | the missing ledger is created with the single column `missing_names`, while `only_new_names` (through `get_names_already_in_file`, line 63) and the deep-scrape pass (line 191) read it through `names` | any first run: `save_artist_ids` creates the missing ledger with header `missing_names`, and the next `only_new_names` raises `ValueError` at `usecols=['names']` | the missing ledger is written under `names`, so its names read back | not executed | ArtistNamesIds.MissingLedgerUnreadable | ArtistNamesIds.IntendedMissingLedgerReadable |
| ArtistNames_analysis.py:206-221 | each cohort filter indexes with `np.array([...])` built from a comprehension; an empty comprehension gives a float array, and indexing with it raises `IndexError` | an `ArtistNames` whose record has no rows, or one whose rows all fail the first mask | a filter that keeps nothing returns the empty record | not executed | ArtistNamesAnalysis.AsWrittenRaisesOnEmpty | ArtistNamesAnalysis.Stages |
| ArtistNames_analysis.py:150 | after a name is put back, the query is cut by `len(last_name) + 4`, but the name was quoted and followed `' OR '`, which is 6 characters more than the name | the names `"a" * 100` and `"b" * 100`: the first query is `artists:"aaa…a" O` | cut by `len(last_name) + 6`, so the query is the OR of the names it consumed | not executed | ArtistNamesAnalysis.TrimmedQueryRemnant | ArtistNamesAnalysis.ExactQueries |
| Editorial_playlists_info.py:48-56 | `while playlists['next']` reads a page's items only when that page has a `next` link, so the last page is fetched but never read | a 'spotify' user with one page holding one public playlist: the stored table is empty | every page is read, as `store_available_spotify_playlists` of Editorial_playlists_artist_info.py does | not executed | EditorialPlaylistsInfo.LastPageUnread | EditorialPlaylistsArtistInfo.AllPagesRead |
| ArtistNames_analysis.py:141-150 | a name that does not fit in a query on its own is popped, found too long, put back at the front, and the next turn starts over with it | a single name of 191 characters: `artists:"…"` is 201 characters, so every turn puts the name back, appends the query `artist`, and the `while` loop never ends | every name is packed and the loop ends; the model packs only names that fit (at most 190 characters), and under that precondition every turn consumes a name | not executed | ArtistNamesAnalysis.LongNameNoProgress | ArtistNamesAnalysis.PackingConsumesAll |
