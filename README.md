# hh_to_PF2e preprocessing and OCR post-processing, in Dafny

This project models the page-editing session of the interactive preprocessing tool and its persistence on the server. It also models the two Python scripts that post-process the OCR text.

- **Session store** (`SessionStore`, with the page locator in `PageIndex`). This is the editor's cursor over the chapters laid end to end:
  - the resume point is the first page whose ledger key `chapter:n` is missing;
  - a flat index is resolved to a chapter and a 1-based page number;
  - next and previous have boundary no-ops and save before they move;
  - the save has a re-entrancy guard.
- **Image store** (`ImageStore`). This is the column list of the page on screen. Add, remove by id, update by id, clear, reorder and sync are each kept in step with the page on screen and mark the page dirty.
- **Tool store** (`ToolStore`). This is the four-field drawing-tool record and its setters.
- **Server** (`Server`). The file system is a map from path to file, and the ImageMagick calls are a parameter that may fail. The model covers:
  - the session read, with `totalPages` recomputed;
  - the page fetch, with its zero-padded path and default metadata;
  - the five steps of a save: clean, crop, metadata, ledger and progress;
  - finishing a session.
- **Correction learner** (`Corrections`). It covers the word predicates, the priority chain of `suggest_correction`, the filtering and counting loop of `analyze_lowconf_words`, and the selection of `generate_corrections_json`.
- **Stat-block extractor** (`StatBlocks`). It covers:
  - the Markdown serialiser `to_markdown`;
  - the first-match search `parse_stat_value`;
  - the field filling and validity rule of `extract_stat_block`;
  - the file-name sanitiser of `process_file`.
- **Shared pieces.** `Types` holds the shapes of `types/index.ts`, the page total and the ledger key. `Text` holds ASCII character classes, decimal rendering, `padStart`, `strip`, `join`, `lower` and `String.prototype.replace`. `Wrappers` holds `Option`.

The page number inside a chapter is the page's array position plus one, as `sessionStore.ts` computes it. The file name of the page image is not used for this.

## Model

| member | source | states |
|---|---|---|
| PageIndex.FindFirstUnprocessedPage | interactive-preprocessing/src/stores/sessionStore.ts:28-40 | Returns -1 exactly when every chapter's key `name:(i+1)` is in the ledger. Otherwise it returns a flat index below the page total whose key is missing while every earlier key is present. |
| PageIndex.FirstMissing | interactive-preprocessing/src/stores/sessionStore.ts:29-39 | The first position of a key missing from the ledger: all keys before it are present; -1 exactly when none is missing. |
| PageIndex.AllProcessedFlat | interactive-preprocessing/src/stores/sessionStore.ts:30-37 | "Every chapter's every page is in the ledger" is the same as "every key of the flattened key list is in the ledger". |
| PageIndex.FlatKeysAt | interactive-preprocessing/src/stores/sessionStore.ts:30-36 | The flat position of page i of chapter c is the chapter's offset plus i, and the key there is `name:(i+1)`. |
| PageIndex.FlatKeysLength | interactive-preprocessing/src/stores/sessionStore.ts:30-36 | The scan visits exactly as many keys as there are pages. |
| PageIndex.LocateCorrect | interactive-preprocessing/src/stores/sessionStore.ts:47-57 | A flat index below the total resolves to the chapter whose range holds it, with a page number in 1..length of that chapter. Re-flattening it gives the index back, and the ledger key at the index is the key of that page. |
| PageIndex.LocateInverse | interactive-preprocessing/src/stores/sessionStore.ts:47-57 | Flattening a chapter and a 1-based page number and then resolving the result gives the same pair back. |
| PageIndex.LocateNone | interactive-preprocessing/src/stores/sessionStore.ts:47-57 | Resolution finds nothing exactly when there are no chapters or the index is at least the page total. |
| PageIndex.LocateFromFound | interactive-preprocessing/src/stores/sessionStore.ts:48-56 | The running-offset walk stops at the first chapter whose end lies past the index, and the page number it gives is `index - offset + 1`. |
| PageIndex.OffsetMonotonic | interactive-preprocessing/src/stores/sessionStore.ts:56 | The running offset never decreases from chapter to chapter. |
| SessionStore.LoadInRange | interactive-preprocessing/src/stores/sessionStore.ts:42-58 | Within range, `loadPage` fetches page `index - offset + 1` of the located chapter. That page number lies in 1..length of the chapter. If the fetch succeeds, the page replaces the one on screen and the cursor becomes `index`; if the fetch rejects, the load rejects and nothing changes. |
| SessionStore.LoadOutOfRange | interactive-preprocessing/src/stores/sessionStore.ts:43-57 | With no session, or an index at or past the page total, `loadPage` changes nothing and does not reject. |
| SessionStore.Load | interactive-preprocessing/src/stores/sessionStore.ts:42-58 | A rejected fetch leaves the cursor alone. The cursor changes only when there is a session and some chapter's range holds the index; it then moves to `index`, and the page on screen is what the fetch returned for the located chapter and page number. |
| SessionStore.Store.LoadPage | interactive-preprocessing/src/stores/sessionStore.ts:42-58 | The chapter loop with its running offset has the effect `Load` describes. |
| SessionStore.Store.SaveCurrentPage | interactive-preprocessing/src/stores/sessionStore.ts:75-89 | Sends exactly one save of the page on screen, unless there is no page or a save is in flight. `isSaving` is what it was before, even when the save fails. A failure is only logged. |
| SessionStore.Store.NextPage | interactive-preprocessing/src/stores/sessionStore.ts:60-66 | With no session, or at `pageIndex >= totalPages - 1` (exactly when `canGoNext`, sessionStore.ts:102-105, is false), it sends no save and changes nothing. Otherwise it saves the page on screen and then loads `pageIndex + 1`. A failed save is logged once. |
| SessionStore.Store.PrevPage | interactive-preprocessing/src/stores/sessionStore.ts:68-73 | At `pageIndex <= 0` (exactly when `canGoPrev`, sessionStore.ts:107-109, is false), it sends no save and changes nothing. Otherwise it saves the page on screen and then loads `pageIndex - 1`. A failed save is logged once. |
| SessionStore.NextPageAdvances | interactive-preprocessing/src/stores/sessionStore.ts:64-65 | Moving forward from a consistent session advances the cursor by exactly one when the page is fetched. This holds whether or not the save succeeded. |
| SessionStore.PrevPageRetreats | interactive-preprocessing/src/stores/sessionStore.ts:71-72 | Moving back retreats the cursor by exactly one when the page is fetched, whatever the save did. |
| SessionStore.Store.InitSession | interactive-preprocessing/src/stores/sessionStore.ts:11-26 | Stores the session and loads the first unprocessed page. When every page is processed it loads page 0 if `totalPages > 0`, and otherwise loads nothing. A failed fetch is only logged. |
| SessionStore.InitResumesAtFirstUnprocessed | interactive-preprocessing/src/stores/sessionStore.ts:17-19 | On start-up with unsaved pages, the cursor lands on the earliest flat index whose ledger key is missing, and that index is below the page total. |
| SessionStore.Store.constructor | interactive-preprocessing/src/stores/sessionStore.ts:5-8 | No session, no page, index 0, no save in flight. |
| ImageStore.WithoutId | interactive-preprocessing/src/stores/imageStore.ts:22 | The kept columns are exactly the old columns whose id differs, and there are no more of them than before. |
| ImageStore.WithoutIdConcat | interactive-preprocessing/src/stores/imageStore.ts:22 | The filter works piecewise, so the relative order of the kept columns is the old order. |
| ImageStore.WithoutIdIdempotent | interactive-preprocessing/src/stores/imageStore.ts:22 | Removing an id twice is removing it once. |
| ImageStore.WithoutAbsentId | interactive-preprocessing/src/stores/imageStore.ts:22 | Removing an id that no column has leaves the list unchanged. |
| ImageStore.UpdatedById | interactive-preprocessing/src/stores/imageStore.ts:32-34 | The length is kept. Each column with the id gets the patched fields, and every other column is unchanged. |
| ImageStore.ReorderChangesOnlyOrder | interactive-preprocessing/src/stores/imageStore.ts:49-51 | Reordering changes only the `order` of the columns with the id. No other column is renumbered and no other field changes. |
| ImageStore.Store.AddColumn | interactive-preprocessing/src/stores/imageStore.ts:8-16 | With no page on screen, nothing changes. Otherwise the list becomes the old list plus `col`; the page on screen holds the same list, and the store is dirty. |
| ImageStore.Store.RemoveColumn | interactive-preprocessing/src/stores/imageStore.ts:18-26 | With no page, nothing changes. Otherwise the list loses exactly the columns with the id, the page on screen holds the same list, and the store is dirty. |
| ImageStore.Store.UpdateColumn | interactive-preprocessing/src/stores/imageStore.ts:28-38 | With no page, nothing changes. Otherwise the columns with the id are patched, the page on screen holds the same list, and the store is dirty. |
| ImageStore.Store.ClearColumns | interactive-preprocessing/src/stores/imageStore.ts:40-47 | With no page, nothing changes. Otherwise both lists are empty and the store is dirty. |
| ImageStore.Store.ReorderColumn | interactive-preprocessing/src/stores/imageStore.ts:49-51 | Same as updating the column with the patch `{ order: newOrder }`. |
| ImageStore.Store.SyncColumnsFromPage | interactive-preprocessing/src/stores/imageStore.ts:54-60 | With a page on screen, the list becomes the page's columns and the store is clean. Without one, nothing changes. |
| ImageStore.Store.constructor | interactive-preprocessing/src/stores/imageStore.ts:5-6 | No columns, not dirty. |
| ToolStore.Store.constructor | interactive-preprocessing/src/stores/toolStore.ts:4-11 | Brush tool, size 30, colour `#ffffff`, auto-detect on. |
| ToolStore.Store.SetActiveTool | interactive-preprocessing/src/stores/toolStore.ts:13-15 | Sets the tool and changes no other field. |
| ToolStore.Store.SetBrushSize | interactive-preprocessing/src/stores/toolStore.ts:17-19 | Sets the size and changes no other field. |
| ToolStore.Store.SetBrushColor | interactive-preprocessing/src/stores/toolStore.ts:21-23 | Sets the colour and turns auto-detect off. Tool and size are unchanged. |
| ToolStore.Store.EnableAutoDetectColor | interactive-preprocessing/src/stores/toolStore.ts:25-27 | Turns auto-detect on and changes nothing else; when it was already on, the state is unchanged. |
| Types.TotalPagesStep | interactive-server/server.js:36-39 | Adding a chapter adds its page count to the total. |
| Types.PageKeyInjective | interactive-preprocessing/src/stores/sessionStore.ts:32 | Two ledger keys are equal only for the same chapter and page number, even when chapter names contain colons. |
| Text.NatToStringInjective | interactive-preprocessing/src/stores/sessionStore.ts:32 | Different page numbers are rendered as different decimal strings. |
| Text.PadStart | interactive-server/server.js:55 | The result is at least the requested width. It ends with the input and is filled on the left with the pad character. |
| Text.Strip | extract_statblocks.py:187 | The result is a contiguous part of the input with no whitespace at either end. It is empty exactly when the input is all whitespace. |
| Text.ReplaceFirstAt | interactive-server/server.js:64 | A string pattern replaces only its first occurrence. |
| Server.Server.GetSession | interactive-server/server.js:30-47 | Fails exactly when the session file cannot be read. Otherwise it returns the manifest with `totalPages` set to the summed page counts of all chapters, computed by the loop. |
| Server.GetPage | interactive-server/server.js:53-85 | Returns "not found" exactly when the zero-padded page image is missing. Otherwise the page carries the chapter, the number, the path and the image. When no metadata record exists, it reports no columns and not processed. When a record exists, the columns and the processed flag are the record's. |
| Server.PaddedPageNumber | interactive-server/server.js:55 | The padded page number has at least three digits and reads back as the page number. |
| Server.PaddedInjective | interactive-server/server.js:97-98 | Different pages of a chapter get different file names. |
| Server.PathsSeparate | interactive-server/server.js:97-124 | No step of a save overwrites what a later step reads or writes. The original image and the session file are not outputs and differ from each other, and neither a crop nor the metadata record is the cleaned image. |
| Server.CropPaths | interactive-server/server.js:111-114 | One crop path per column, in array order. Each is numbered by the column's `order`, or by its 1-based position when `order` is 0. |
| Server.MetadataApart | interactive-server/server.js:98-124 | The metadata record's path is neither the cleaned image nor any crop path, whatever the chapter and session names. |
| Server.AppendOnce | interactive-server/server.js:130-135 | The key ends up in the ledger. The old ledger is kept as a prefix, at most one entry is added, and nothing else is added. |
| Server.AppendOnceIdempotent | interactive-server/server.js:133-135 | Saving the same page twice records it once. |
| Server.AppendOnceNoDuplicates | interactive-server/server.js:133-135 | A ledger without duplicates stays without duplicates. |
| Server.Percent | interactive-server/server.js:144 | The nearest whole percentage, with halves rounded up. It is 0 without a positive total. |
| Server.PercentBounds | interactive-server/server.js:140-145 | With no more pages processed than exist, the percentage lies in 0..100 and is 100 when all pages are processed. |
| Server.CropsFailed | interactive-server/server.js:111-115 | Once one crop fails, the whole crop step fails. |
| Server.CropsFrame | interactive-server/server.js:111-115 | The crop step writes only crop paths. |
| Server.CleanedImage | interactive-server/server.js:102-108 | Fails when the original is missing. Without a mask the cleaned image is the original itself; with one it is what the mask command produces from the original. |
| Server.Crops | interactive-server/server.js:110-115 | Succeeds exactly when every crop of the columns so far succeeds. Then every file already present and every crop path is present, and the last crop path holds the last crop. |
| Server.BeforeLedger | interactive-server/server.js:102-124 | Steps 1 to 3 succeed exactly when the clean and every crop succeed. Then the metadata record holds the columns, `processed`, the timestamp and whether a mask was applied, the cleaned image is written, and no file is removed. |
| Server.SaveSteps | interactive-server/server.js:96-145 | Succeeds exactly when steps 1 to 3 do and the session file then reads back. On success the session's ledger holds the key, no path but the session file differs from the state after step 3, and the progress event counts the new ledger. |
| Server.SaveNeedsImageAndSession | interactive-server/server.js:102-137 | A save fails when the page image is missing or the session file cannot be read. |
| Server.SaveRecordsPage | interactive-server/server.js:91-148 | After a successful save: the session file is the one read before, with the page's key added once to `processedPages` and every other field kept; the metadata record holds the columns as sent, `processed` and whether a mask was applied; without a mask the cleaned image is a copy of the original; the original is untouched; the broadcast counts the ledger. |
| Server.SaveThenGetPage | interactive-server/server.js:53-154 | After a successful save of page n, the ledger holds the key the editor looks for, `chapter:n`. Fetching page n then finds its image and reports the saved columns as processed. |
| Server.SaveKeyIsPageKey | interactive-server/server.js:131 | The server's ledger key for a page is the key the editor's resume scan looks for. |
| Server.Server.Save | interactive-server/server.js:91-154 | Succeeds exactly when the save steps do, leaving their file system and one progress broadcast. On failure nothing is broadcast, and no path other than the cleaned image, a crop or the metadata record has changed. With a session name free of '/', `PathsSeparate` shows that the session file is not one of those paths. A failed clean or crop leaves the metadata record as it was. A failure at the session file leaves the cleaned image, the crops and the metadata record of steps 1 to 3 in place. |
| Server.Server.SaveTo | interactive-server/server.js:96-148 | The steps in their fixed order (clean, crop, metadata, ledger, progress) have the effect `SaveSteps` describes. On failure, a failed clean or crop has changed nothing but the cleaned image and the crops, and a failure at the session file leaves exactly the state after step 3. |
| Server.Server.CropColumns | interactive-server/server.js:111-115 | Crops the columns in array order and stops at the first failure. It succeeds exactly when every crop does, and changes no path other than a crop path. |
| Server.Server.Finish | interactive-server/server.js:160-178 | Fails, changing nothing, exactly when the session file cannot be read. Otherwise it writes the manifest back with status completed and the timestamp, whatever the ledger holds, and broadcasts the completion message. |
| Server.Server.constructor | interactive-server/server.js:205-207 | The session file is the given name inside the output root, which is its directory. There are no broadcasts yet. |
| Server.MetadataPathAsWrittenAgrees | interactive-server/server.js:64 | When the page path's first ".png" is its extension, the page fetch reads the metadata where the save writes it. |
| Server.MetadataPathAsWrittenMisses | interactive-server/server.js:64 | For the chapter "a.png" under the root "out", the page fetch reads a different path from the one the save writes. |
| Corrections.SuggestCorrection | generate_corrections.py:106-142 | A known word gets its table value. Otherwise, garbage gets "" (delete). Otherwise, a number- or stat-like word or a word of at most two characters gets no suggestion. |
| Corrections.KnownBeatsGarbage | generate_corrections.py:43 | "eT" is both garbage and in the table; the table wins, so it becomes "et" and is not deleted. |
| Corrections.NeverSuggestsItself | generate_corrections.py:106-142 | No suggestion equals the word itself. |
| Corrections.PreservedTermIgnoresCase | generate_corrections.py:74-76 | Whether a word is a preserved term does not depend on its letter case. |
| Corrections.SymbolGarbageNeverCounted | generate_corrections.py:64-89 | A word made only of the garbage symbols is garbage, and it is also pure punctuation, so it never gets a count. |
| Corrections.NumberLikeExamples | generate_corrections.py:92-103 | A number ("250"), an ordinal ("2nd"), a stat ("AC5") and a page marker in any case ("Page-12") are number-like. |
| Corrections.NotNumberLikeExamples | generate_corrections.py:97-100 | A dice expression such as "1d6" is not number-like, although the comment on the pattern names it; a plain word is not either. |
| Corrections.ZeroOneAreNumberLike | generate_corrections.py:97-98 | A digit followed by letters already counts as number-like. |
| Corrections.ZeroOneRewritesShadowed | generate_corrections.py:117-132 | The 0→o and 1→l rewrites never take effect: such a word gets no suggestion unless it is in the table or is garbage. |
| Corrections.Rewrite | generate_corrections.py:124-136 | The rewrites never lengthen a word. A word that does not look like a number or a statistic gets only the "rn" and "vv" rewrites. |
| Corrections.LigatureSuggestion | generate_corrections.py:134-142 | Past the guards, a word gets a suggestion exactly when it has an "rn" before a vowel, or a "vv" once those are rewritten. The suggestion is the word with both rewrites applied. |
| Corrections.FixRn | generate_corrections.py:135 | The rewrite never lengthens a word. The first character becomes an "m" when the word starts with an "rn" before a vowel, and is kept otherwise. |
| Corrections.FixRnLeavesNone | generate_corrections.py:135 | After the "rn" rewrite no "rn" stands before a vowel. |
| Corrections.FixRnIdempotent | generate_corrections.py:135 | Applying the "rn" rewrite twice is applying it once. |
| Corrections.FixVv | generate_corrections.py:136 | The rewrite never lengthens a word. The result starts with a "v" exactly when the word starts with a "v" that no second "v" follows. |
| Corrections.FixRnChanges | generate_corrections.py:135 | The "rn" rewrite shortens a word exactly when an "rn" stands before a vowel, and otherwise returns the word unchanged. |
| Corrections.FixVvLeavesNone | generate_corrections.py:136 | After the "vv" rewrite no "vv" is left. |
| Corrections.FixVvKeeps | generate_corrections.py:136 | A word without "vv" is left unchanged by the "vv" rewrite. |
| Corrections.FixVvIdempotent | generate_corrections.py:136 | Applying the "vv" rewrite twice is applying it once. |
| Corrections.LigaturesChange | generate_corrections.py:135-136 | The two rewrites change a word exactly when it has an "rn" before a vowel or, after that, a "vv". |
| Corrections.Kept | generate_corrections.py:196-211 | Exactly the entries below the threshold that are not blank, not punctuation and not a preserved term are kept, and no others. |
| Corrections.KeptConcat | generate_corrections.py:196-211 | The filter works piecewise over the input, so the kept entries are in input order. |
| Corrections.KeptCount | generate_corrections.py:196-213 | The count of a word is the number of input entries with that word that pass all four filters. |
| Corrections.FilteredNeverCounted | generate_corrections.py:201-211 | Preserved terms (in any letter case), blank words and pure punctuation never get a count. |
| Corrections.ConfidencesBelowThreshold | generate_corrections.py:197-199 | Every recorded confidence is below the threshold. |
| Corrections.ConfidencesMatchCount | generate_corrections.py:213-214 | A word has one recorded confidence per count, and each is the confidence of a kept entry with that word. |
| Corrections.CountLowConfWords | generate_corrections.py:184-215 | The three dictionaries built by the loop hold exactly the per-word counts, the per-word confidence lists and the per-chapter counts of the kept entries. A key is present exactly when something was counted under it. |
| Corrections.GenerateCorrections | generate_corrections.py:225-243 | The corrections hold exactly the words with count at least `min_occurrences` that have a suggestion, each mapped to that suggestion. `word_count` is the number of distinct counted words and `corrections_count` the number of corrections. |
| StatBlocks.ToMarkdown | extract_statblocks.py:77-179 | The lines built step by step, joined with newlines, are the lines `MarkdownLines` lists section by section. |
| StatBlocks.MarkdownFrame | extract_statblocks.py:82-83 | The text starts with `## name` followed by a blank line, and ends with the `---` rule and a final newline. |
| StatBlocks.MarkdownLines | extract_statblocks.py:77-179 | The line list starts with the `## name` heading and a blank line, and ends with the `---` rule and an empty line, with at least the five lines of the combat table between them. |
| StatBlocks.JoinFrame | extract_statblocks.py:176-179 | Joining such lines with newlines keeps the first line followed by a blank line, and ends in `\n---\n`. |
| StatBlocks.AppendCombat | extract_statblocks.py:90-108 | Appends the combat heading, the table header, one row per non-empty statistic and a blank line. |
| StatBlocks.PresentAt | extract_statblocks.py:95-106 | Each non-empty value has its line, at the position given by the number of non-empty values before it. |
| StatBlocks.PresentOnly | extract_statblocks.py:95-106 | Every line printed is the line of a non-empty value, at that value's position, so the order is the fixed field order. |
| StatBlocks.PresentLength | extract_statblocks.py:95-106 | One line per non-empty value. |
| StatBlocks.PresentEmpty | extract_statblocks.py:95-106 | No line is printed exactly when every value is empty. |
| StatBlocks.SpecialIff | extract_statblocks.py:111-120 | The Special Abilities section appears exactly when special attacks, special defenses or magic resistance is non-empty. |
| StatBlocks.AppendSpecial | extract_statblocks.py:111-120 | Appends the Special Abilities section, which is empty when all three fields are empty. |
| StatBlocks.AbilitiesIff | extract_statblocks.py:123-141 | The Ability Scores section appears exactly when some ability score is non-empty. |
| StatBlocks.AppendAbilities | extract_statblocks.py:123-141 | Appends the present ability scores in Str, Dex, Con, Int, Wis, Cha order on one line, separated by " \| ". |
| StatBlocks.OtherIff | extract_statblocks.py:144-158 | The Additional Info section appears exactly when size, morale, alignment or XP is non-empty. |
| StatBlocks.AppendOther | extract_statblocks.py:144-158 | Appends size, morale, alignment and XP, those present, on one line. |
| StatBlocks.AppendList | extract_statblocks.py:161-174 | Appends a `### title` section with one `- item` line per element, in list order. It appends nothing for an empty list. |
| StatBlocks.Bullets | extract_statblocks.py:164-165 | One `- item` line per element, in list order. |
| StatBlocks.ParseStatValue | extract_statblocks.py:182-188 | Returns "" when no pattern matches. Otherwise it returns the stripped capture of the first pattern in list order that matches, which has no whitespace at either end. |
| StatBlocks.PatternsOf | extract_statblocks.py:195-259 | THAC0 and hp have three patterns each, every other field two, tried in list order. Every pattern tried has a regular expression, and the list stops where the field's expressions do. |
| StatBlocks.Texts | extract_statblocks.py:195-259 | Each field lists one regular expression per pattern, and none of them is empty. |
| StatBlocks.Regex | extract_statblocks.py:195-259 | A pattern has a regular expression exactly when its rank is below its field's pattern count. |
| StatBlocks.Set | extract_statblocks.py:268 | `setattr` changes exactly the named field. |
| StatBlocks.FillFields | extract_statblocks.py:266-272 | The two loops fill the statistic fields and then the ability fields, each with its first-match value, and leave every other field alone. |
| StatBlocks.ExtractStatBlock | extract_statblocks.py:262-278 | No block exactly when THAC0, AC and hp are all empty. Otherwise every field holds the first-match value for its patterns, and the raw text is kept. |
| StatBlocks.SafeName | extract_statblocks.py:372-374 | The file name is never empty. |
| StatBlocks.SafeNameShape | extract_statblocks.py:372-374 | The file name is never empty. It has no spaces, only word characters, `-` or other whitespace, and no whitespace at either end. A name with no word character and no `-` falls back to `statblock_<i+1>`. |
| StatBlocks.SanitizeChars | extract_statblocks.py:372 | The sanitised name is no longer than the name and has no spaces. Each of its characters is a word character, `-` or whitespace other than a space, and is either a character of the name or an `_` that replaced a space. |
| StatBlocks.SanitizeEnds | extract_statblocks.py:372 | The sanitised name has no whitespace at either end. |
| StatBlocks.SanitizeEmpty | extract_statblocks.py:372-373 | Nothing is left exactly when the name has no word character and no `-`. |
| StatBlocks.SafeNameIdempotent | extract_statblocks.py:372-374 | Sanitising a file name a second time changes nothing. |
| StatBlocks.PlainNameKept | extract_statblocks.py:372-374 | A name made only of word characters and `-` is used as it is. |

## Left out

- Asynchronous interleaving: each `async` operation of the stores and the server is one atomic step. `isSaving` is plain state and is not a proof about concurrent calls.
- `fetchSession`, `fetchPage` and `savePage` (`services/api.ts`) are parameters: a function returning `None` for a rejected promise, and a flag for whether the save resolves. The canvas mask getter is a parameter too. `console.error` is an `errors` log.
- ImageMagick (`imageProcessor.js`, which is not part of this model): `applyMask` and `cropColumn` are the parameter `tool`, which returns `None` when the command fails. The mask's temporary file is not modelled.
- File-system writes that fail are not modelled; a failed write of the metadata record or the session file cannot happen in the model.
- JSON parsing and serialisation: the manifest and metadata are records. A session file that does not parse is a path holding something other than a manifest. Extra JSON fields beyond the record's are dropped.
- `path.join` normalisation: paths are joined with "/" as given, so `..` segments and doubled slashes are not resolved.
- Server.Server.Save: the crop paths are computed before the loop instead of inside it. Nothing in between changes their inputs.
- Server.Percent: `Math.round` of a floating-point quotient is modelled as exact rational rounding (halves up). Floating-point rounding error is not captured.
- Timestamps (`new Date().toISOString()`, `datetime.now()`) are parameters. The server's start-up, Express routing, CORS and socket.io transport are left out; broadcasts are appended to `events`.
- Server.GetPage: reads the metadata record at `<base>-metadata.json`, where a save writes it. `server.js` replaces the first ".png" of the page path instead. That is the same path exactly when the first ".png" is the extension (`MetadataPathAsWrittenAgrees`); the other case is under "## Findings".
- ImageStore.Store.SyncColumnsFromPage: `page.columns || []` is the page's column list, because a `Page` here always has one.
- The editor's `canGoNext` and `canGoPrev` are functions of the store. Their effect is stated through the boundary clauses of `NextPage` and `PrevPage`.
- Character classes are ASCII: Python's Unicode `\w`, `\d`, `\s`, `str.strip` and `str.lower` are not modelled beyond ASCII (white space is the ASCII set, 0x1C..0x1F included; U+0085, U+00A0 and the other Unicode spaces are not), and a regular expression's `$` allowing a final newline is not modelled (the words are single tokens).
- Regular-expression search in `extract_statblocks.py` is the parameter `search`: the capture of a pattern's first group, or `None`. The pattern texts are listed by `Regex` but not interpreted.
- `find_stat_blocks`, the display name `Unknown NPC {i+1}`, `source_location`, the file writes of `process_file`, the combined output file and the tqdm fallback are left out. They are I/O and backtracking regular expressions.
- `parse_lowconf_file`, `find_lowconf_files`, `print_report` and `main` (argparse, file reading, float parsing, report printing) are left out. The entries of all files arrive as one sequence, each tagged with its chapter.
- Corrections.GenerateCorrections: `most_common()` order, and so the key order of the corrections file, is not modelled; the result is a map. The metadata's fixed description, version and the garbage and preserved lists copied into the file are left out.

## Findings

| source | as written | input that shows it | evidently intended | confidence | as-written member | corrected member |
|---|---|---|---|---|---|---|
| interactive-server/server.js:64 | The page fetch finds the metadata record by replacing the first ".png" anywhere in the page path, while the save writes it at the base path plus "-metadata.json" (server.js:124). | Output root "out", chapter "a.png", page 1. The fetch reads "out/a-metadata.json/.temp/page-001.png"; the save wrote "out/a.png/.temp/page-001-metadata.json". | The fetch reads the record where the save writes it, so a saved page reports its columns as processed. | not executed | Server.MetadataPathAsWrittenMisses | Server.SaveThenGetPage |
