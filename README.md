# ts-ttvemote-dl in Dafny

ts-ttvemote-dl downloads Twitch and BetterTTV emote images into
`./twitchemotes/emoticons/` and lists them in `emoticons.txt`, the
emoticon manifest TeamSpeak 3 reads. This project models the part of the
program that decides what to fetch, what to keep and what to write, and
proves properties of that model.

- `outcomes.dfy` (`Outcomes`) holds `Option` and `Outcome<T> = Ok | Err(message) | Panic`.
  A `.unwrap()` that would abort the process is `Panic`, kept apart from
  the `Err(String)` the Rust functions return.
- `json.dfy` (`JsonValue`) holds the decoded rustc_serialize JSON tree. An
  object is any sequence of (key, value) pairs. The `BTreeMap` shape
  (strictly ascending keys) is the predicate `SortedKeys`. It is assumed
  only by the lemmas `GetSorted` and `GlobalPairsAscending`.
- `text.dfy` (`Text`) writes out the string operations the code relies
  on: `u64::to_string`, `to_lowercase`, `str::replace`, `trim` and
  `starts_with`.
- `ttv.dfy` (`Ttv`) models `src/ttv.rs`:
  - the `download_json` status dispatch;
  - the `TtvEmoteData` and `BttvEmoteData` classes, whose resolver
    methods overwrite `template`, append to `data` and cache
    `sub_emotes`.

  Each resolver method is proved against a function of the reply it got
  (`ResolveGlobal`, `ResolveSubscriber`, `SubscriberLookup`,
  `ResolveBttv`), whose contracts say which parts of the reply an Ok
  result holds. The loops inside them are specified by folds. Lemmas
  relate `GlobalPairs`, `SubEmotes` and `BttvPairs` to element-wise
  reference definitions. `ChannelEmotes` is characterised instead: it is
  defined exactly when every entry's contribution is, a single matching
  key gives exactly that entry's emotes, and the scan of a concatenation
  is the join of the scans. The network is a `Network` object: the n-th
  request gets the fixed reply `reply(n)`, and every requested URL is
  logged.
- `app.dfy` (`App`) models `src/main.rs`:
  - the normalisation `read` applies to a typed line;
  - the prompts that edit the configuration;
  - the fetch phase of `main` and its two download flags. Each call is
    a function on a `FetchState` value (the fields of both catalogs plus
    the request log). The channel loops are folds of those calls that
    stop at the first panic. Each method that does not panic is proved to leave exactly the
    state these functions compute;
  - `save_images`, a loop over a `Workspace` (existing files, manifest
    text, image requests). It is proved against the fold `SaveAll`, whose
    lemmas cover skip-if-exists, the manifest line and progress counting.

The BetterTTV template gets `https:` in front unconditionally
(src/ttv.rs:153 and 189), even when the template already has a scheme.

## Model

| member | source | states |
|---|---|---|
| Ttv.Network.Get | src/ttv.rs:217-220 | A GET logs its URL and returns the reply numbered by how many requests came before. |
| Ttv.DownloadJson | src/ttv.rs:211-244 | A failed TLS client panics (line 213), and so does a body that is not a JSON object (lines 227-228). Send and read errors come back as `Err`. The result is Ok exactly for a decoded object whose `status` is absent or 200, and then it is that object. Any other `Err` carries the object's `message` for a non-200 numeric status. |
| Ttv.DownloadJsonDispatch | src/ttv.rs:230-244 | No `status` gives Ok(object); status 200 gives Ok(object); another numeric status with a string `message` gives Err(message). An `Err` arises exactly in that case. |
| Ttv.TtvEmoteData.constructor | src/ttv.rs:26-32 | The new catalog has an empty template, no entries and no cached subscriber data. |
| Ttv.SmallTemplate | src/ttv.rs:41-47 | Specification function: `template.small` as a string, or None where an `unwrap` fails. Used by `ResolveGlobal` and `ResolveSubscriber`, whose contracts state its effect. |
| Ttv.GlobalPairs | src/ttv.rs:51-60 | Specification function of the `emotes` loop: one `(key, decimal image_id)` pair per entry, or None where an `unwrap` fails. Its meaning is stated by `GlobalPairsExact`. |
| Ttv.ImageId | src/ttv.rs:52-58 | Specification function: an entry's `image_id` as a u64, or None where an `unwrap` fails. `GlobalPairsExact` states its use. |
| Ttv.ResolveGlobal | src/ttv.rs:34-63 | A fetch error is passed through unchanged, and it is the only way to get an `Err`. The result is Ok exactly when the fetch succeeded, `template.small` is a string, `emotes` is an object and `GlobalPairs` of it decodes. Then the template is `template.small` and the entries are `GlobalPairs` of `emotes`. Every other case panics. |
| Ttv.TtvEmoteData.GetGlobalEmotes | src/ttv.rs:34-63 | Requests the global URL once. The outcome is that of `ResolveGlobal` on its reply. On Ok the template is `template.small` and the new entries are appended after the old ones. On Err the template and entries are unchanged. The cache is never touched. |
| Ttv.TtvEmoteData.PushGlobalEntries | src/ttv.rs:51-60 | The loop succeeds exactly when `GlobalPairs` does. On success it appends exactly `GlobalPairs(entries)`. |
| Ttv.GlobalPairsExact | src/ttv.rs:51-60 | All or nothing: one entry per `emotes` key, in map order, named by the key, with `image_id` in decimal. It succeeds exactly when every value has a 64-bit unsigned `image_id`. |
| Ttv.GlobalPairsAscending | src/ttv.rs:51-59 | With sorted map keys, the appended names are strictly ascending, hence distinct. |
| Ttv.GlobalExample | src/ttv.rs:41-60 | A reply holding `Kappa` with image id 25 gives the template and the single entry ("Kappa", "25"). |
| Ttv.ResolveSubscriber | src/ttv.rs:65-84 | A fetch error is passed through and is the only `Err`. The result is Ok exactly when the fetch succeeded and `template.small` is a string. Then the template is `template.small` and the cached channels are exactly the object's `channels` value, possibly absent. |
| Ttv.TtvEmoteData.UpdateSubEmoteData | src/ttv.rs:65-84 | Requests the subscriber URL once and never touches `data`. On Ok it sets the template and caches `channels`. On Err the template and cache are unchanged. |
| Ttv.TtvEmoteData.GetSubscriberEmotes | src/ttv.rs:86-128 | Makes no request when subscriber data is cached, and exactly one refresh otherwise. A refresh error leaves everything unchanged. Otherwise the outcome is `SubscriberLookup` on the channels then cached: its emotes are appended on Ok and nothing on Err. |
| Ttv.TtvEmoteData.CollectChannelEmotes | src/ttv.rs:94-127 | The scan over the channel map returns `Status(SubscriberLookup(..))`. On Ok it appends exactly the lookup's emotes; on "No emotes found" it appends nothing. |
| Ttv.TtvEmoteData.ScanEntry | src/ttv.rs:104-122 | A non-matching key contributes nothing. A matching key contributes its `emotes` array, or the scan panics. |
| Ttv.TtvEmoteData.PushSubEmotes | src/ttv.rs:114-122 | The inner loop succeeds exactly when every element decodes, and then appends exactly `SubEmotes(emotes)`. |
| Ttv.ChannelMatches | src/ttv.rs:104 | Predicate: query and key are equal once both are lower-cased. `ChannelEmotesCaseInsensitive` and `MatchExample` state its behaviour. |
| Ttv.ChannelItems | src/ttv.rs:106-112 | Specification function: a matching entry's `emotes` array, or None where an `unwrap` fails. |
| Ttv.SubEmote | src/ttv.rs:115-118 | Specification function: one array element's `code` and decimal `image_id`, or None where an `unwrap` fails. `SubEmotesExact` states its use. |
| Ttv.SubEmotes | src/ttv.rs:114-122 | Specification function of the inner loop over a channel's `emotes` array. Its meaning is stated by `SubEmotesExact`. |
| Ttv.SubEmotesExact | src/ttv.rs:114-122 | One `(code, decimal image_id)` entry per array element, in array order. The loop succeeds exactly when every element has both fields. |
| Ttv.ChannelContribution | src/ttv.rs:104-122 | Specification function: what one entry of the channel map adds to the scan. `ScanEntry` is proved against it. |
| Ttv.ChannelEmotes | src/ttv.rs:96-123 | Specification function of the scan over the channel map: the matching entries' emotes joined in map order, or None where an `unwrap` fails. Its properties are `ChannelEmotesDefined`, `ChannelEmotesSingle`, `ChannelEmotesAppend`, `ChannelEmotesStopsAt`, `ChannelEmotesNoMatch` and `ChannelEmotesCaseInsensitive`. |
| Ttv.SubscriberLookup | src/ttv.rs:96-127 | Err is exactly "No emotes found". Ok never carries an empty list. The lookup returns Ok or Err if and only if the channels are present, are an object and the scan does not panic; then the scan's emotes are exactly the Ok list, or nothing for Err. |
| Ttv.SubscriberLookupNoMatch | src/ttv.rs:96-126 | A channel map with no key matching the query gives Err("No emotes found"). |
| Ttv.ChannelEmotesAppend | src/ttv.rs:96-123 | The scan over a concatenated map is the join of the two scans, so every matching key contributes, not just the first. |
| Ttv.ChannelEmotesStopsAt | src/ttv.rs:106-118 | A matching entry that panics makes the whole lookup panic. |
| Ttv.ChannelEmotesNoMatch | src/ttv.rs:96-104 | A map with no matching key yields no emotes. |
| Ttv.ChannelEmotesDefined | src/ttv.rs:96-123 | The scan panics exactly when some entry's contribution does. |
| Ttv.ChannelEmotesSingle | src/ttv.rs:96-123 | When exactly one key matches, the lookup is exactly what that key's entry contributes. |
| Ttv.ChannelEmotesCaseInsensitive | src/ttv.rs:104 | Queries equal up to case give the same lookup. |
| Ttv.MatchExample | src/ttv.rs:104 | "Xqc" matches the key "xqc"; "xqc" does not match "xqcow". |
| Ttv.BttvTemplate | src/ttv.rs:147-153 | The template always starts with `https:`. |
| Ttv.BttvTemplateShape | src/ttv.rs:183-189 | After the `https:` prefix no `{{image}}` remains. A template without `{{image}}` is just prefixed. |
| Ttv.ResolveBttv | src/ttv.rs:142-172 | A fetch error is passed through and is the only `Err`. The result is Ok exactly when the fetch succeeded, `urlTemplate` is a string, `emotes` is an array and `BttvPairs` of it decodes. Then the template is `BttvTemplate` of `urlTemplate` and the entries are `BttvPairs` of `emotes`. |
| Ttv.BttvEmoteData.constructor | src/ttv.rs:133-138 | The new catalog has an empty template and no entries. |
| Ttv.BttvEmoteData.GetGlobalBttvEmotes | src/ttv.rs:140-173 | Requests the global BetterTTV URL once. On Ok it overwrites the template and appends the `png` entries; on Err nothing changes. |
| Ttv.BttvChannelUrl | src/ttv.rs:177-178 | Specification function: the channels URL followed by the channel name, not escaped. |
| Ttv.BttvEmoteData.GetChannelBttvEmotes | src/ttv.rs:175-208 | The same for `https://api.betterttv.net/2/channels/` followed by the channel name. |
| Ttv.BttvEmoteData.Absorb | src/ttv.rs:177-207 | The shared body: one request, then the outcome of `ResolveBttv` on its reply, as above. |
| Ttv.BttvEmoteData.PushPngEntries | src/ttv.rs:193-205 | The loop succeeds exactly when every element decodes, and then appends exactly `BttvPairs(items)`. The template is untouched. |
| Ttv.DecodeBttvEntry | src/ttv.rs:159-163 | Specification function: an element's `code`, `id` and `imageType` strings, or None where an `unwrap` fails. |
| Ttv.BttvPairs | src/ttv.rs:157-170 | Specification function of the element loop: the png entries in array order, or None where an element fails to decode. Its meaning is stated by `BttvPairsIsFilter` and `PngOnlyExact`. |
| Ttv.BttvPairsIsFilter | src/ttv.rs:157-170 | The loop's result is the png-only filter over the decoded array. It fails exactly when some element lacks `code`, `id` or `imageType`; an unknown image type is skipped, not an error. |
| Ttv.PngOnlyExact | src/ttv.rs:165-169 | The number appended equals the number of `png` entries. Every `png` entry is appended, and nothing else is. |
| Ttv.BttvPairsNone | src/ttv.rs:159-163 | One element that fails to decode makes the whole loop panic. |
| JsonValue.Get | src/ttv.rs:41 | Specification function of `BTreeMap::get`: the value paired with the key, or None. `GetSorted` states what it finds. |
| JsonValue.GetSorted | src/ttv.rs:8 | In a key-sorted map, looking up a key finds the pair that holds it. |
| JsonValue.AsU64 | src/ttv.rs:57 | `as_u64` gives a value exactly for an integer in 0..2^64-1, and then it is that integer. |
| Text.Decimal | src/ttv.rs:59 | An id's text is non-empty and all digits, with no leading zero unless it is "0". |
| Text.DecimalRoundTrip | src/ttv.rs:118-120 | Reading the decimal text back gives the id. |
| Text.DecimalInjective | src/ttv.rs:120 | Distinct ids give distinct text. |
| Text.Lower | src/main.rs:214 | Lower-casing keeps the length and leaves no upper-case letter. |
| Text.LowerIdempotent | src/ttv.rs:104 | Lower-casing twice is lower-casing once. |
| Text.ReplaceAll | src/ttv.rs:152 | Specification function of `str::replace`: every non-overlapping occurrence, from left to right, is replaced. Its properties are the three lemmas below. |
| Text.ReplaceAllNoMatch | src/main.rs:157-159 | A string without the pattern is not changed by `replace`. |
| Text.ReplaceAllRemoves | src/ttv.rs:152 | If the replacement shares no character with the pattern, no occurrence of the pattern is left. |
| Text.ReplaceAllKeepsAbsent | src/main.rs:157-159 | `replace` does not create occurrences of a string that shares no character with the replacement. |
| Text.Trim | src/main.rs:214 | The result is a factor of the input with only whitespace cut off, and it neither starts nor ends with whitespace. |
| Text.TrimNoOp | src/main.rs:214 | A string with no whitespace at either end is already trimmed. |
| App.PopIf | src/main.rs:207-212 | Specification function: `String::pop` when the last character is the given one. |
| App.Normalize | src/main.rs:207-214 | Specification function of `read`'s normalisation: pop one `\n`, then one `\r`, lower-case, trim. Its properties are the three lemmas below. |
| App.NormalizeShape | src/main.rs:207-214 | An answer `read` returns has no whitespace at either end and no upper-case letter. |
| App.NormalizeIdempotent | src/main.rs:207-214 | Normalising an answer again changes nothing. |
| App.NormalizeExample | src/main.rs:207-214 | "Xqc\r\n" reads as "xqc", and an empty buffer (end of input) reads as "". |
| App.Answer | src/main.rs:203-205 | Specification function: the answer at a prompt position, or "" past the last typed line. |
| App.Accepts | src/main.rs:41-42 | Predicate: a yes-by-default answer, which is yes unless it starts with "n". `EditConfig` uses it for every such question. |
| App.ChannelPrompt | src/main.rs:45-61 | Specification function of a channel loop: the answers before the first empty one, and where reading stops. Its meaning is stated by `ChannelPromptExact`. |
| App.ChannelPromptExact | src/main.rs:45-61 | A channel loop keeps every answer before the first empty one, in order, and consumes that empty one. No kept answer is empty. |
| App.ReadChannels | src/main.rs:45-61 | Both channel loops, the Twitch one (lines 45-50) and the BetterTTV one (lines 56-61), run this. The loop appends exactly `ChannelPrompt`'s channels to the list and stops just after the first empty answer. |
| App.EditConfig | src/main.rs:38-66 | Answering "n" to "Edit config?" keeps the configuration and asks nothing else. Otherwise both global flags are true unless the answer starts with "n". Each channel list is extended by its loop's answers. The save path is asked for only when saving is accepted, and every prompt is read in source order. |
| App.FileName | src/main.rs:153 | Specification function: `{id}.png`. `FileNameInjective` states that it keeps ids apart. |
| App.FileNameInjective | src/main.rs:153 | Distinct ids give distinct file names. |
| App.DownloadUrl | src/main.rs:157-159 | Specification function: `{image_id}` and then `{{id}}` replaced by the id. Its properties are the three lemmas below. |
| App.DownloadUrlFilled | src/main.rs:157-159 | For a non-empty id sharing no character with either placeholder, the URL holds neither `{image_id}` nor `{{id}}`. |
| App.DecimalUrlFilled | src/main.rs:157-159 | Every Twitch (decimal) id fills in both placeholders. |
| App.DownloadUrlWithoutImageId | src/main.rs:157-159 | A template without `{image_id}` only has its `{{id}}` placeholders replaced. |
| App.ManifestLine | src/main.rs:185 | Specification function: the manifest line `{id}.png = "{name}"` and its newline. Its meaning is stated by `ManifestLineRoundTrip`. |
| App.ManifestLineRoundTrip | src/main.rs:185 | The line `{id}.png = "{name}"` plus newline parses back to the id and the name, for any name and any id without `.`. |
| App.SaveRun | src/main.rs:124-194 | One `save_images` call without a TLS client is a panic. One with no manifest is an early return. Both leave the directory unchanged. Otherwise the loop runs from the appended manifest, or from the empty one `File::create` leaves. |
| App.SaveImages | src/main.rs:124-194 | The workspace and the outcome are those of `SaveRun`. The list is emptied exactly when the loop ran to the end. |
| App.Step | src/main.rs:152-190 | Specification function of one turn of the `save_images` loop on a `Disk`. `StepFresh` states what it does to a missing file. |
| App.SaveAll | src/main.rs:150-191 | Specification function of the whole loop: `Step` folded over the list in order. `SaveImages` is proved against it, and its properties are the `SaveAll` lemmas below. |
| App.SaveAllGrows | src/main.rs:150-191 | Files are only added. The manifest and the request log only grow at the end. Each record adds at most one request and one progress step, so progress never exceeds the list length. |
| App.SaveAllCreatesOnly | src/main.rs:170-171 | Only the records' own `{id}.png` files are created. |
| App.SaveAllCreates | src/main.rs:162-177 | Every record whose GET and create succeeded has its file afterwards, even when the copy failed. |
| App.SaveAllExisting | src/main.rs:152-155 | When every record's file already exists, nothing is requested, created, written or counted. |
| App.SaveAllSkipsExisting | src/main.rs:152-155 | A record whose file is present when the loop reaches it changes nothing, whether the file was there before the run or an earlier record with the same id created it. |
| App.SaveAllRerun | src/main.rs:152-177 | After a run in which every GET and create succeeded, a second run changes nothing, whatever its own transfers do. |
| App.SaveAllFresh | src/main.rs:150-191 | With distinct ids and no files present: one request per record, in order. Each record whose GET, create, copy and write all succeeded adds exactly its manifest line. Each copied record adds one progress step, whether or not its line was written. |
| App.StepFresh | src/main.rs:152-190 | One record whose file is missing causes one request. A saved record adds one progress step and, when written, its manifest line. |
| App.NotYetCreated | src/main.rs:153 | A record whose id no earlier record shares still finds its file missing. |
| App.KappaExample | src/main.rs:150-191 | Saving ("Kappa", "25") into an empty directory creates `25.png`, writes the line `25.png = "Kappa"` and counts one step. |
| App.GlobalTtvCall | src/ttv.rs:34-63 | Specification function: `get_global_emotes` on a `FetchState`, with the outcome and new fields that `ResolveGlobal` gives for the next reply. `GetGlobalEmotes` states the same per call. |
| App.RefreshCall | src/ttv.rs:65-84 | Specification function: `update_sub_emote_data` on a `FetchState`, as `ResolveSubscriber` gives it for the next reply. |
| App.BttvCall | src/ttv.rs:140-208 | One BetterTTV call on a `FetchState`: it requests its URL, and its outcome is what `ResolveBttv` makes of the next reply. |
| App.LookupCall | src/ttv.rs:94-127 | Specification function: the lookup part of `get_subscriber_emotes` on a `FetchState`, which appends `SubscriberLookup`'s emotes on Ok. |
| App.SubscriberCall | src/ttv.rs:86-92 | One `get_subscriber_emotes` on a `FetchState`: no request when the channels are cached, and then the cache and the template are kept; otherwise one refresh request first. |
| App.SubscriberCalls | src/main.rs:93-98 | Fold of `SubscriberCall` over the Twitch channels, each call on the state the previous one left, stopping at the first panic. It logs at most one outcome per channel. |
| App.BttvCalls | src/main.rs:105-110 | Fold of `BttvCall` over the BetterTTV channels, stopping at the first panic. It logs at most one outcome per channel. |
| App.Globals | src/main.rs:76-88 | Specification function of the two global fetches. Its meaning is stated by `GlobalsExact`. |
| App.Channels | src/main.rs:90-111 | Specification function of the channel phase: the refresh and the Twitch loop only when channels are configured, the lookups only after a successful refresh, then the BetterTTV loop unless something panicked. Its meaning is stated by `ChannelsRequests` and `ChannelsCounts`. |
| App.FetchRun | src/main.rs:76-111 | Specification function of the whole fetch phase: `Globals`, then `Channels` unless a global call panicked. Its meaning is stated by `FetchRunCounts`. |
| App.BttvChannelUrls | src/ttv.rs:177-178 | One URL per channel, each formatted from its name. |
| App.GlobalsExact | src/main.rs:76-88 | Each global catalog is fetched only when configured, the Twitch one first. Each logged outcome is the resolver's outcome on its own reply. Without a panic the requests are exactly the configured global URLs. |
| App.SubscriberCallsLog | src/main.rs:93-98 | The Twitch channel loop logs one outcome per channel unless a call panics; then the panic is the last entry and the only one. |
| App.SubscriberCallsRequests | src/main.rs:93-98 | The Twitch channel loop keeps the earlier requests and adds only the subscriber URL, at most once per channel. |
| App.SubscriberCallsCached | src/ttv.rs:88-92 | With the channels cached, the loop makes no request and keeps the cache and the template. Outcome k is `SubscriberLookup` of channel k on the cached channels. |
| App.BttvCallsLog | src/main.rs:105-110 | The BetterTTV channel loop logs one outcome per channel unless a call panics; then the panic is the last entry and the only one. |
| App.BttvCallsReplies | src/main.rs:105-110 | Outcome k of the BetterTTV channel loop is what `ResolveBttv` makes of the loop's k-th reply. |
| App.BttvCallsRequests | src/main.rs:105-110 | The loop requests the URL of each channel it reached, in order, after the earlier requests. |
| App.ChannelsRequests | src/main.rs:90-111 | The exact request list of the channel phase in three cases: no Twitch channel, a refresh that failed, or one that cached the channel map. It is the refresh (if any), then one URL per BetterTTV channel. |
| App.ChannelsCounts | src/main.rs:90-111 | A channel phase without a panic refreshes exactly when Twitch channels are configured. It logs one outcome per Twitch channel after a successful refresh, none otherwise, and one per BetterTTV channel. Its first request is the refresh. |
| App.FetchRunCounts | src/main.rs:76-111 | A fetch phase without a panic logs one outcome per configured global catalog, one per Twitch channel after a successful refresh and one per BetterTTV channel. Its first requests are the global ones, then the refresh. |
| App.Fetch | src/main.rs:68-111 | If the directory cannot be created, nothing is requested, nothing changes and no flag is set. Otherwise the logs and the requests are exactly those of `FetchRun`, and a completed run leaves exactly `FetchRun`'s catalogs. The run aborts exactly when some call panicked. Each flag is true exactly when some call for its provider returned Ok. |
| App.FetchGlobals | src/main.rs:76-88 | The logs and requests are exactly those of `Globals`, and without a panic both catalogs are exactly as `Globals` leaves them. Each flag is true exactly when its call returned Ok. |
| App.FetchChannels | src/main.rs:90-111 | The refresh, the logs and the requests are exactly those of `Channels`, and without a panic both catalogs are as `Channels` leaves them. The lookups run only after a successful refresh, and the BetterTTV channels follow. |
| App.Refresh | src/main.rs:91 | The outcome, the requests and (without a panic) the catalogs are those of `RefreshCall`. |
| App.LookUpTtvChannels | src/main.rs:93-98 | The log, the requests and (without a panic) the catalogs are those of `SubscriberCalls`. `panicked` and `found` tell whether the log holds a panic or an Ok. |
| App.LookUpOne | src/main.rs:94 | The outcome, the requests and (without a panic) the catalogs are those of `SubscriberCall`. |
| App.CallBttvChannel | src/main.rs:106 | The outcome, the requests and (without a panic) the catalogs are those of `BttvCall` on the channel's URL. |
| App.LookUpBttvChannels | src/main.rs:105-110 | The log, the requests and (without a panic) the catalogs are those of `BttvCalls`. `panicked` and `found` tell whether the log holds a panic or an Ok. |
| App.Download | src/main.rs:113-120 | Each catalog is saved only when its flag is set, the Twitch one first, each save with its own TLS client. The BetterTTV save runs on the directory the first save left, and never after a TLS panic. A finished save empties that catalog's entries and leaves its template alone. |

## Left out

- HTTPS and TLS (`hyper`, `NativeTlsClient`) are not modelled. A request is a call on `Network`, whose n-th reply is given in advance. A failing `NativeTlsClient::new()` in `download_json` is the reply `NoTls`; in `save_images` it is the `tls` argument of `SaveImages`, which `Download` gives separately for each of its two calls.
- Ttv.Network.Get: a `NoTls` reply is still logged as a request, although `NativeTlsClient::new().unwrap()` (src/ttv.rs:213) panics before anything is sent. It only happens on a panic path, and nothing is promised after a panic.
- JSON text parsing (`Json::from_str`) is not modelled. A reply carries the decoded tree, or None when the body is not JSON.
- The filesystem is reduced to a set of existing file names plus a success flag for each GET, create, copy and manifest write (`Transfer`), and for opening the manifest (`ManifestOpen`). `create_dir_all` is the `dirCreated` argument of `Fetch`. File contents and partial writes are not modelled.
- The progress bar is only its increment count; `println!` output is not modelled.
- Standard input is not modelled. The prompts take the list of answers `read` returns, each of them `Normalize` of a typed line; past the list every answer is "", as `read_line` leaves at end of input.
- `Config::new`, `create_from_file` and `write_to_file` (src/main.rs:27-36 and 65) are not part of this model: `Config` is given as a value, and `EditConfig` returns the save path it read.
- Text.Lower: folds only the ASCII letters A-Z, not the Unicode case mapping of `to_lowercase`.
- A panic stops the process. The model returns `Panic` and states nothing about the fields after it.
- The emote `Vec` is a `seq` field. `save_images` returns the emptied list, which `Download` stores back into the catalog.
