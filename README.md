# AI image generator — a Dafny model of its core

This project models the core of the AI image generator, a small web application.

- **Direct generation**: a page sends a prompt, with an optional system prompt and a model, size and quality, to a server. The server asks an image provider for one image and downloads it into an images directory under an *enhanced* file name (`model_W_H_quality_stamp[_prompt].png`).
- **Chat**: a session store keeps multi-turn conversations with a language model. Each conversation links to the provider's previous response. Images the model produces are saved the same way.
- **Gallery**: a service lists the images directory. It reads metadata back out of each file name, sorts the images newest first and counts them by model, type, size and quality. A gallery page filters that list.
- **Pricing**: a client-side table prices each model, quality and size. The direct page rebuilds its quality and size dropdowns and shows the price of the current choice.

Entities that are values (sessions, messages, metadata, gallery images, requests and results) are datatypes. Objects whose fields the code updates in place are classes:
- `Chat.ChatService` (the session map, plus the order in which sessions were first stored);
- `GalleryView.GalleryManager`;
- `DirectView.DirectImageGenerator`;
- `Pricing.PricingCalculator`;
- `Dom.SelectElement`, the one browser element the pages' logic depends on.

The following are parameters:
- the clock, as `iso`/`now` strings;
- random ids;
- the provider's replies;
- the outcomes of file writes, downloads and directory listings.

Loops in the source are methods with invariants, each proved against a specification function:
- the metadata scan of legacy names;
- the catalogue scan;
- the statistics loop;
- the size walk of the pricing table;
- the dropdown rebuilds;
- the option refresh of the gallery filters.

Library sorts (`Array.prototype.sort`) are specified as functions that return a sorted permutation.

A Dafny `char` is a Unicode scalar value, while JavaScript strings are sequences of UTF-16 code units. Where the source counts or cuts code units (`length`, `substring`, a per-unit regular-expression replace), the model works on `Text.Utf16` of the string, so a character outside the Basic Multilingual Plane counts twice.

Parsing a file name is not the inverse of writing one. The generator writes `model_W_H_quality_stamp[_prompt].ext`. The parser splits that on `_` and reads:
- segment 1, the width, as the model;
- segment 2, the height, as the size;
- segment 3 as the quality;
- everything from the stamp onward as the prompt, with dashes turned into spaces.

The lemmas in `FilenameCodec` state exactly what comes back. They prove that a `dall-e-3` name parses with model `1024`. They also prove that an image saved by the chat service with the default size and quality is typed `direct`, not `chat`, whenever neither the user's message nor the clock reading holds a 'c'. A message such as "chat" puts that word in the name, and the name is then typed `chat` (`FilenameCodec.ChatMessageTypedChat`).

Points where the code could be read more than one way, as the model takes them:
- The parsed prompt keeps the `_` between the stamp and the prompt, because it is `parts.slice(4).join('_')` (src/services/galleryService.ts:161).
- The prompt fragment of a chat image's name comes from the user's message (src/services/chatService.ts:183).
- The example name in the parser's comment, `20241220_143022_dall-e-3_1024x1024_hd_a-beautiful-sunset.png` (src/services/galleryService.ts:151), has a layout the generator never writes; the parser reads its time as the model, its model as the size and its size as the quality (`FilenameCodec.CommentExampleShifted`).
- When several options of a dropdown are flagged as selected, the last one wins, as the HTML selectedness rules say (public/direct.js:331-349).
- The gallery filters' "All" option is each select's first child, which the refresh keeps (public/gallery.js:129).

## Model

| member | source | states |
|---|---|---|
| Wrappers.MessageOf | src/utils/imageUtils.ts:74 | The message of a caught value is the `Error`'s message, or "Unknown error" for anything else thrown. |
| Wrappers.Or | src/utils/fileUtils.ts:78 | `o \|\| d` on an optional string: the value when it is present and non-empty, the default otherwise. |
| Text.ReplaceFirst | src/utils/fileUtils.ts:79 | `replace('x', '_')` changes only the first occurrence; every other character and the length are kept. |
| Text.ReplaceEach | src/utils/fileUtils.ts:64 | A global character-class replace maps every target character and keeps every other one, at the same position. |
| Text.Split | src/services/galleryService.ts:154 | `split('_')` gives at least one piece, and no piece holds the separator. |
| Text.JoinSplit | src/services/galleryService.ts:154 | Joining the pieces of a split with the separator gives the string back. |
| Text.SplitCount | src/services/galleryService.ts:154-156 | A split has one piece more than the string has separators. |
| Text.SortLex | public/gallery.js:135 | `options.sort()` returns the options in ascending character order, as a permutation of the input. |
| Text.LexLeTotal | public/gallery.js:135 | The string order the sort uses is total. |
| Text.LexLeAntisymmetric | public/gallery.js:135 | The string order is antisymmetric. |
| Text.LexLeTransitive | public/gallery.js:135 | The string order is transitive. |
| Text.Distinct | public/pricing.js:162-166 | Collecting into a `Set` and back keeps each element once, at its first occurrence, and loses none. |
| Text.TrimShape | public/direct.js:99 | `trim()` returns the block between the leading and the trailing whitespace, with no whitespace at either end. |
| Text.TrimEmpty | public/direct.js:105 | The trimmed text is empty exactly when the input is all whitespace. |
| Text.NatToStringValue | public/pricing.js:147 | The decimal digits written for a count read back as that count. |
| Text.Utf16Char | src/utils/imageUtils.ts:31 | A character is one UTF-16 code unit, its own code, inside the Basic Multilingual Plane, and otherwise a high surrogate followed by a low surrogate. |
| Text.Utf16 | public/direct.js:71 | A string's UTF-16 encoding has between one and two code units per character. |
| Text.Utf16Bmp | public/direct.js:71 | A string has as many code units as characters exactly when every character is in the Basic Multilingual Plane, and then each unit is its character's code. |
| Text.Utf16Below | src/utils/imageUtils.ts:31 | A code unit below the surrogates occurs in the encoding exactly when its character occurs in the string. |
| FileUtil.JoinPath | src/utils/imageUtils.ts:34 | `path.join(dir, name)` ends in a separator followed by the name (no normalisation; see Left out). |
| FileUtil.Stamp | src/utils/fileUtils.ts:64 | The timestamp has the ISO string's length, holds no ':' or '.', and keeps every other character in place. |
| FileUtil.TimestampFilename | src/utils/fileUtils.ts:63-66 | `image_` + the stamp + `.` + the extension, with the stamp at positions 6 onward. |
| FileUtil.ModelPart | src/utils/fileUtils.ts:78 | The model field is the given model, or `dalle2` when it is absent or empty. |
| FileUtil.SizePart | src/utils/fileUtils.ts:79 | The size with its first 'x' turned into '_', or `1024_1024` when it is absent or empty. |
| FileUtil.QualityPart | src/utils/fileUtils.ts:80 | The quality, or `auto` when it is absent or empty. |
| FileUtil.PromptPart | src/utils/fileUtils.ts:81 | `_` + the prompt when the prompt is non-empty, nothing otherwise. |
| FileUtil.EnhancedFilename | src/utils/fileUtils.ts:71-84 | The name starts with the model field and '_', and ends with '.' and the extension. |
| FileUtil.SizePartUnderscore | src/utils/fileUtils.ts:79 | A defaulted size, or one with an 'x', puts an underscore in the size field. |
| FileUtil.EnhancedFilenameSegments | src/utils/fileUtils.ts:83 | Such a name splits on '_' into at least five pieces, whatever the model and quality hold. |
| ImageUtil.Sanitize | src/utils/imageUtils.ts:31 | `replace(/[^a-zA-Z0-9]/g, '_')` works on UTF-16 code units: the result has one character per code unit; an ASCII letter or digit is kept and every other unit, each surrogate half included, becomes '_'. |
| ImageUtil.SanitizeUnit | src/utils/imageUtils.ts:31 | One code unit: kept when it is an ASCII letter or digit, '_' otherwise. |
| ImageUtil.SanitizeChar | src/utils/imageUtils.ts:31 | One character gives one replaced unit per code unit of its encoding. |
| ImageUtil.SanitizeBmp | src/utils/imageUtils.ts:31 | For text in the Basic Multilingual Plane the result has the same length, and each character is kept or turned into '_'. |
| ImageUtil.SanitizeEmoji | src/utils/imageUtils.ts:31 | A character outside the Basic Multilingual Plane gives two '_': "\U{1F431}cat" becomes "__cat". |
| ImageUtil.PromptFragment | src/utils/imageUtils.ts:31 | `substring(0, 30)` then the replace: the first 30 UTF-16 code units of the prompt (fewer if it is shorter), each sanitised, so only ASCII letters, digits and '_' remain. |
| ImageUtil.SaveFilename | src/utils/imageUtils.ts:27-32 | The saved name is the model (default `gpt-image-1`), the size with its first 'x' turned into '_' (default `1024x1024`), the quality (default `low`) and the stamp, each followed by '_', then the fragment of the prompt (default `chat_image`), then `.png`. |
| ImageUtil.SaveBase64Image | src/utils/imageUtils.ts:14-76 | It fails exactly when creating the directory or writing fails. A directory error escapes with its own message, before the write; a failed write yields exactly "Failed to save image: " + the message. Otherwise the result names the file, `/images/<name>`, and the joined path. |
| ImageUtil.ProcessImageOutputs | src/utils/imageUtils.ts:81-111 | There is no result exactly when there are no outputs or the first one has an empty payload. Only the first output matters. A result is the save of that payload, and it fails exactly when that save does, with the same error. |
| ImageUtil.TrailingPadding | src/utils/imageUtils.ts:122 | The count of '=' characters at the end of the string, and no more. |
| ImageUtil.PaddingDetermined | src/utils/imageUtils.ts:122 | Where the base64 pattern matches, its alphabet part ends exactly where the trailing padding starts. |
| ImageUtil.ValidateBase64Image | src/utils/imageUtils.ts:116-124 | True exactly when the string is longer than 100 characters and matches `^[A-Za-z0-9+/]*={0,2}$`. |
| ImageUtil.GetImageFileInfo | src/utils/imageUtils.ts:129-139 | A timestamp PNG name, the images directory, and the two joined. |
| OpenAIService.FinalPrompt | src/services/openaiService.ts:44 | The prompt alone without a system prompt. With one, the labelled system prompt followed by the labelled image prompt. It always ends with the user prompt. |
| OpenAIService.GeneratedFilename | src/services/openaiService.ts:84-90 | The saved name is the effective model, size (first 'x' turned into '_'), quality and stamp, each followed by '_', then `_` and the user prompt's fragment unless the prompt is empty, then `.png`. |
| OpenAIService.NameIgnoresSystemPrompt | src/services/openaiService.ts:84-90 | The name depends on the user prompt only: changing the system prompt leaves it unchanged. |
| OpenAIService.GenerateAndSaveImage | src/services/openaiService.ts:18-131 | The request carries the defaulted options, the final prompt and n = 1. A thrown reply or a missing URL fails before any download. A download to the joined path fails with "HTTP <code>" or the error's message. Success happens exactly on status 200, and the result echoes the URL, `/images/<name>`, the clock and the effective options. |
| Gallery.Lower | src/services/galleryService.ts:52 | Lower-casing keeps the length and lowers each ASCII letter in place. |
| Gallery.FreeSuffixLen | src/services/galleryService.ts:153 | The length of the trailing run of characters that are neither '.' nor '/'. |
| Gallery.StripExtension | src/services/galleryService.ts:153 | `replace(/\.[^/.]+$/, '')` yields a prefix. It drops exactly a final `.ext` when the pattern matches, and keeps the name when it matches nowhere. |
| Gallery.LastOf | src/services/galleryService.ts:178-186 | The last segment recognised for a field, or none when no segment is recognised for it. |
| Gallery.Segments | src/services/galleryService.ts:153-154 | The name without its extension, split on '_'; there is always at least one segment. |
| Gallery.ParseFilenameMetadata | src/services/galleryService.ts:142-196 | The metadata equals the parse by segment count: five or more segments are enhanced, two to four are legacy, fewer is unknown. |
| Gallery.ReadLegacySegments | src/services/galleryService.ts:178-186 | The loop leaves in each field the last segment recognised for it. Model tests come before size tests, and size tests before quality tests. |
| Gallery.LastOfStep | src/services/galleryService.ts:178-186 | One more segment overwrites its field's value when it is recognised for that field. |
| Gallery.ShortNameUnknown | src/services/galleryService.ts:145-147 | A name with no '_' before its extension yields only the unknown type. |
| Gallery.LegacyLastWins | src/services/galleryService.ts:181-182 | In a legacy name the size is the last dimensions-shaped segment. |
| Gallery.ImageOf | src/services/galleryService.ts:64-72 | The image record carries the name, `/images/<name>`, the joined path, the stat's size and times, and the parsed metadata. |
| Gallery.EntryImage | src/services/galleryService.ts:51-77 | An entry contributes an image exactly when its name has an image extension and its stat succeeds. |
| Gallery.Collect | src/services/galleryService.ts:59-78 | The collected list is no longer than the input. |
| Gallery.CollectComplete | src/services/galleryService.ts:59-78 | Every value yielded for an item is collected. |
| Gallery.CollectSound | src/services/galleryService.ts:59-78 | Every collected value was yielded for some item. |
| Gallery.CollectAppend | src/services/galleryService.ts:59-78 | Collecting keeps listing order: collecting a concatenation concatenates the collections. |
| Gallery.Catalogue | src/services/galleryService.ts:57-78 | The catalogue has at most one image per listed entry. |
| Gallery.CatalogueComplete | src/services/galleryService.ts:51-74 | Every image file whose stat succeeds is in the catalogue. |
| Gallery.CatalogueSound | src/services/galleryService.ts:51-77 | Every catalogued image comes from a listed image file whose stat succeeded. |
| Gallery.SortNewestFirst | src/services/galleryService.ts:81 | The sort orders by non-increasing creation time and is a permutation. |
| Gallery.InsertByDate | src/services/galleryService.ts:81 | Inserting into a newest-first list keeps it newest-first and adds exactly the one image. |
| Gallery.ScanEntries | src/services/galleryService.ts:59-78 | The loop over the listing builds exactly the catalogue. |
| Gallery.GetAllImages | src/services/galleryService.ts:39-90 | A missing directory gives an empty list, or the scan error if creating it fails. An unreadable directory gives the scan error. A listed one gives the catalogue, newest first. |
| Gallery.SumOfAppend | src/services/galleryService.ts:99 | The sum over a concatenation is the sum of the two sums. |
| Gallery.SumOfPermutation | src/services/galleryService.ts:99 | The total size does not depend on the order of the images. |
| Gallery.BumpTallied | src/services/galleryService.ts:115-129 | One counter update keeps the map equal to the count of each non-empty value seen so far. |
| Gallery.BumpAllTallied | src/services/galleryService.ts:112-130 | One loop turn keeps all four counters exact. |
| Gallery.TalliedPermutation | src/services/galleryService.ts:112-130 | The counters do not depend on the order of the images. |
| Gallery.TypeCountsSum | src/services/galleryService.ts:17 | Every image has exactly one of the three types, so the three type counts add up to the number of images. |
| Gallery.ByTypeSum | src/services/galleryService.ts:119-121 | `byType` has only the three type names as keys, and its counts add up to the number of images. |
| Gallery.ComputeStats | src/services/galleryService.ts:97-130 | The totals are the count and the size sum. Every counter counts each non-empty value exactly. The oldest and newest dates exist exactly for a non-empty list, and come from its last and first images. |
| Gallery.GetGalleryStats | src/services/galleryService.ts:92-140 | It succeeds exactly when listing succeeds, and passes listing errors on. Otherwise it returns the statistics of the catalogue, whose counts and sizes are order-free. |
| FilenameCodec.SizePartHalves | src/utils/fileUtils.ts:79 | A writable size is written as width, '_', height, with no '_' in either half. |
| FilenameCodec.StripAppendedExtension | src/services/galleryService.ts:153 | Stripping the extension of `base.ext` gives `base` back, for an extension without '.' or '/'. |
| FilenameCodec.SplitPrefixed | src/services/galleryService.ts:154 | Leading segments without '_' come back out of the split one by one. |
| FilenameCodec.SplitStep | src/services/galleryService.ts:154 | One more leading segment adds one piece in front. |
| FilenameCodec.EnhancedShape | src/utils/fileUtils.ts:83 | An enhanced name is model, width, height and quality, each followed by '_', then the stamp and prompt part, then the extension. |
| FilenameCodec.EnhancedSegments | src/services/galleryService.ts:153-154 | Such a name splits into model, width, height, quality, and then the pieces of the stamp and prompt. |
| FilenameCodec.ParseOfEnhanced | src/services/galleryService.ts:153-168 | Parsing a freshly written enhanced name gives model = width, size = height, the written quality, and prompt = the stamp and prompt part with dashes turned into spaces. |
| FilenameCodec.PrefixedParse | src/services/galleryService.ts:153-160 | A name of at least four '_'-free leading segments parses with segments 1, 2 and 3 as model, size and quality. |
| FilenameCodec.CommentExampleShifted | src/services/galleryService.ts:151-160 | The parser's own example name parses with model `143022`, size `dall-e-3` and quality `1024x1024`. |
| FilenameCodec.EnhancedPngListed | src/services/galleryService.ts:51-53 | Every enhanced `.png` name passes the gallery's image-file test. |
| FilenameCodec.PngListed | src/services/galleryService.ts:51-53 | Any name ending in `.png` passes the image-file test. |
| FilenameCodec.EnhancedWithoutC | src/services/galleryService.ts:164-168 | An enhanced name with no 'c' in any field is typed chat exactly when its width is `gpt-image-1`, and direct otherwise. |
| FilenameCodec.EnhancedPromptKeepsUnderscore | src/services/galleryService.ts:161 | The parsed prompt is the spaced stamp, then '_', then the spaced prompt. |
| FilenameCodec.WorkedExampleFields | src/services/galleryService.ts:150-161 | The `dall-e-3`, `1024x1024`, `hd` example parses with model `1024`, size `1024` and quality `hd`. |
| FilenameCodec.WorkedExamplePrompt | src/services/galleryService.ts:161 | The example's parsed prompt keeps the '_' between stamp and prompt. |
| FilenameCodec.WorkedExampleKind | src/services/galleryService.ts:164-168 | The example is typed direct. |
| FilenameCodec.ChatSavedName | src/services/chatService.ts:179-184 | A chat image saved with the default size and quality gets the enhanced name of `gpt-4.1-mini`, `1024x1024`, `low` and the message's fragment. |
| FilenameCodec.ChatImageTypedDirect | src/services/galleryService.ts:164-168 | Such an image is read back as a direct image, given no 'c' in the message or the clock. |
| FilenameCodec.ChatNameFields | src/services/chatService.ts:179-184 | The fields of that name hold no 'c' and no stray '_', and its width is not `gpt-image-1`. |
| FilenameCodec.ChatNameKind | src/services/galleryService.ts:164-168 | The enhanced name of `gpt-4.1-mini`, `1024x1024`, `low` and the fragment is typed direct. |
| FilenameCodec.ChatMessageTypedChat | src/services/galleryService.ts:164-168 | The condition is needed: the message "chat", saved with the default size and quality, gives a name the gallery types `chat`. |
| FilenameCodec.ChatWordInName | src/utils/imageUtils.ts:27-32 | A save whose prompt is "chat" holds "chat" in its name. |
| FilenameCodec.ChatWordFragment | src/utils/imageUtils.ts:31 | The fragment of "chat" is "chat" itself. |
| FilenameCodec.SavedNameDefaults | src/utils/imageUtils.ts:27-32 | `saveBase64Image` without options names the image `gpt-image-1_1024_1024_low_<stamp>_chat_image.png`. |
| FilenameCodec.DefaultSizePart | src/utils/fileUtils.ts:79 | The default size `1024x1024` is written `1024_1024`. |
| FilenameCodec.ParseOfSaved | src/services/galleryService.ts:153-168 | Reading back a name `saveBase64Image` wrote gives the width as model, the height as size, the defaulted quality, and as prompt the stamp, '_' and the fragment (or `chat_image`), dashes turned into spaces. |
| FilenameCodec.SavedIsEnhanced | src/utils/imageUtils.ts:27-32 | A saved name is the enhanced name of the defaulted model, size and quality and a never-empty fragment. |
| FilenameCodec.ParseOfGenerated | src/services/galleryService.ts:153-168 | Reading back a name `generateAndSaveImage` wrote gives the effective options' fields the same way, with the user prompt's fragment as prompt. |
| Chat.EmptySession | src/services/chatService.ts:54-59 | A new session has the id, no messages and no response id; its creation and update times are two separate clock readings. |
| Chat.SessionFor | src/services/chatService.ts:71-79 | A non-empty known id gives the stored session; anything else gives a fresh empty session with the given creation and update readings. |
| Chat.TextsOf | src/services/chatService.ts:165 | The texts of exactly the message items; none exactly when there is no message item. |
| Chat.TextsOfAppend | src/services/chatService.ts:165 | `filter` keeps order and multiplicity: the texts of two lists one after the other are the texts of the first, then those of the second. |
| Chat.TextsOfCons | src/services/chatService.ts:165 | Read front to back, a message item puts its text first and any other item adds nothing. |
| Chat.ImagesOf | src/services/chatService.ts:164 | The payloads of exactly the image-generation items; none exactly when there is no such item. |
| Chat.ImagesOfAppend | src/services/chatService.ts:164 | The image filter keeps order and multiplicity across a concatenation. |
| Chat.ImagesOfCons | src/services/chatService.ts:164 | Read front to back, an image-generation item puts its payload first and any other item adds nothing. |
| Chat.FirstImage | src/services/chatService.ts:164 | The first payload, the only one the image save looks at, is that of the first image-generation item of the reply. |
| Chat.Or0 | src/services/chatService.ts:164-165 | A missing output list reads as empty. |
| Chat.SaveOptionsFor | src/services/chatService.ts:179-184 | A reply's image is saved with the chat model, the requested size or `1024x1024`, the quality or `low`, and the user's message as prompt. |
| Chat.RequestFor | src/services/chatService.ts:140-151 | The request carries the chat model, the session's last response id, the message, and the defaulted size and quality. |
| Chat.ReplyContent | src/services/chatService.ts:167-206 | The reply is never empty. It is the joined texts; else the image notice when an image was saved; else the fallback question. |
| Chat.ExtrasFor | src/services/chatService.ts:187-190 | The assistant message carries the response id, and the saved image's link and name when there is one. |
| Chat.AssistantReply | src/services/chatService.ts:159-240 | A thrown reply, or a failed image save (directory or write), gives the apology with the error's message. Otherwise the reply text and the extras above. The reply is never empty. |
| Chat.ValuesAt | src/services/chatService.ts:254 | The sessions stored under the listed ids, in order. |
| Chat.WellKeyedCardinality | src/services/chatService.ts:61 | The session map has exactly as many entries as the order has ids. |
| Chat.ChatService.constructor | src/services/chatService.ts:27 | A store starts with no sessions. |
| Chat.ChatService.CreateSession | src/services/chatService.ts:52-66 | Stores and returns an empty session under the fresh id, with its own two clock readings; the id joins the order only if it is new. |
| Chat.ChatService.GetOrCreateSession | src/services/chatService.ts:71-79 | Returns the stored session for a non-empty known id with nothing changed; otherwise creates one. |
| Chat.ChatService.AddMessage | src/services/chatService.ts:84-102 | An unknown session fails with "Session <id> not found" and nothing changes. Otherwise the message, stamped with one clock reading, is appended and the update time set from the next. |
| Chat.ChatService.RecordResponse | src/services/chatService.ts:159-161 | The session's last response id and update time change, nothing else. |
| Chat.ChatService.HandleReply | src/services/chatService.ts:159-206 | Records the response id, and sets the update time from its own clock reading, only for a reply that was not thrown; nothing else changes. Produces the assistant text and extras. |
| Chat.ChatService.ProcessMessage | src/services/chatService.ts:107-241 | The session becomes the prior one plus the user's message and the assistant's reply. Each timestamp is its own clock reading, and the final update time is the last. Its last response id is updated only on a reply, and the request links to the prior response. No other session changes. |
| Chat.ChatService.GetSession | src/services/chatService.ts:246-248 | The stored session exactly when the id is known. |
| Chat.ChatService.GetAllSessions | src/services/chatService.ts:253-255 | Every stored session once, in the order the ids were first stored. |
| Pricing.Keys | public/pricing.js:159 | `Object.keys` gives the keys in table order. |
| Pricing.Lookup | public/pricing.js:85 | A lookup finds an entry exactly when the key is among the keys. |
| Pricing.LookupUnique | public/pricing.js:85 | With distinct keys, a lookup gives the key's one entry. |
| Pricing.AllSizeKeys | public/pricing.js:163-164 | The size keys of every quality, one list after another. |
| Pricing.AllSizeKeysMembers | public/pricing.js:163-164 | A size is among them exactly when some quality offers it. |
| Pricing.AllSizeKeysAppend | public/pricing.js:163-164 | One more quality appends its keys. |
| Pricing.DistinctStep | public/pricing.js:164 | One more key added to the set keeps it the distinct list of the keys met. |
| Pricing.PricingCalculator.constructor | public/pricing.js:3-80 | The calculator holds the client's tables, whose keys are distinct and whose prices are non-zero. |
| Pricing.PricingCalculator.DirectCost | public/pricing.js:83-96 | A price is a non-zero entry of the table; an unknown model gives none. |
| Pricing.PricingCalculator.DirectCostListed | public/pricing.js:83-96 | For well-formed tables a price is given exactly when the table lists it. |
| Pricing.PricingCalculator.ChatTokens | public/pricing.js:115-125 | A token count is a non-zero entry of the table under the quality and size; an unknown quality gives none. |
| Pricing.PricingCalculator.ChatTokensListed | public/pricing.js:115-125 | For a well-formed chat table a count is given exactly when the table lists it for the quality and size, in both directions. |
| Pricing.PricingCalculator.ChatCost | public/pricing.js:99-112 | There is a cost exactly when there is a token count, and it is the count times the token price. |
| Pricing.PricingCalculator.NoAutoChatQuality | public/pricing.js:60-76 | The chat table has no `auto` quality: neither tokens nor cost. |
| Pricing.PricingCalculator.LowSquareChatCost | public/pricing.js:62 | A low-quality square chat image is 272 tokens, that is $0.00272. |
| Pricing.PricingCalculator.GetAvailableSizes | public/pricing.js:152-172 | The sizes offered for a model are those of the given quality, or every size of every quality, once each, in the order first met. |
| Pricing.PricingCalculator.CollectSizes | public/pricing.js:162-166 | The nested walk yields the distinct size keys of all qualities. |
| Pricing.PricingCalculator.AddEach | public/pricing.js:164 | Adding keys to the set gives the distinct list of everything met. |
| Pricing.PricingCalculator.OfferedSizesPriced | public/pricing.js:157-159 | Every size offered for a model and quality has a price. |
| Pricing.PricingCalculator.AllSizesOffered | public/pricing.js:160-166 | Without a quality, a size is offered exactly when some quality of the model lists it. |
| Pricing.PricingCalculator.AvailableQualities | public/pricing.js:175-183 | The model's quality keys, or none for an unknown model. |
| Pricing.DirectPricingWellFormed | public/pricing.js:5-58 | The direct table's keys are distinct at every level and no price is zero. |
| Pricing.GptImage1WellFormed | public/pricing.js:6-27 | The `gpt-image-1` table is well formed. |
| Pricing.DallE3WellFormed | public/pricing.js:28-44 | The `dall-e-3` table is well formed. |
| Pricing.DallE2WellFormed | public/pricing.js:45-56 | The `dall-e-2` table is well formed. |
| Pricing.ChatTokenTableWellFormed | public/pricing.js:60-76 | The chat table's quality keys and size keys are distinct and no count is zero. |
| Pricing.FormatPrice | public/pricing.js:128-138 | "N/A" exactly for a missing price; otherwise a dollar amount. |
| Pricing.FormatTokens | public/pricing.js:141-149 | "N/A" exactly for a missing count; a count below 1000 is its decimal digits followed by " tokens". |
| Pricing.SmallTokensReadBack | public/pricing.js:147 | The digits shown for a count below 1000 read back as the count. |
| Dom.FirstIndex | public/gallery.js:144 | The index of the first option with the value. |
| Dom.SelectElement.Value | public/gallery.js:127 | `select.value` is the selected option's value, or "" with no options. |
| Dom.SelectElement.constructor | public/gallery.js:17-53 | A select with the given options has the first one selected. |
| Dom.SelectElement.RemoveLastChild | public/gallery.js:130-132 | Drops the last option; a removed selection falls back to the first option. |
| Dom.SelectElement.Clear | public/direct.js:319 | Leaves no options and no selection. |
| Dom.SelectElement.AppendOption | public/direct.js:332-344 | Appends the option. A flagged option becomes the selection, and the first option of an empty select is selected. |
| Dom.SelectElement.SelectChild | public/direct.js:348 | Selects the given option. |
| Dom.SelectElement.SetValue | public/gallery.js:144 | Selects the first option with the value. |
| GalleryView.FilterImages | public/gallery.js:153-157 | Keeps exactly the images that agree with every filter that is set. |
| GalleryView.FilterKeepsOrder | public/gallery.js:153-157 | The filtered list is a subsequence of the full list. |
| GalleryView.FilterCounts | public/gallery.js:153-157 | A matching image keeps its multiplicity, and any other image is dropped. |
| GalleryView.NoFiltersKeepAll | public/gallery.js:153-157 | With every filter on "All" nothing is dropped. |
| GalleryView.FilterIdempotent | public/gallery.js:153-157 | Filtering twice is filtering once. |
| GalleryView.SubsequenceReflexive | public/gallery.js:91 | The copied list is a subsequence of the images. |
| GalleryView.TruthyValues | public/gallery.js:118 | The non-empty values the images have in a field. |
| GalleryView.OptionValues | public/gallery.js:118 | Each of those values once, and no other value. |
| GalleryView.Toggled | public/gallery.js:218 | The view always changes. |
| GalleryView.ToggleTwice | public/gallery.js:218 | Toggling twice restores the view. |
| GalleryView.GalleryManager.constructor | public/gallery.js:2-15 | No images, the grid view, every filter on "All", and no modal image. |
| GalleryView.GalleryManager.LoadGallery | public/gallery.js:81-107 | A listing replaces the images and the totals, copies them to the filtered list, and refreshes the model and size filters. A failed answer shows "Failed to load gallery: " + its message, or the default message. |
| GalleryView.GalleryManager.ShowImages | public/gallery.js:89-95 | The received images, their copy, their totals, and the refreshed filters. |
| GalleryView.GalleryManager.UpdateStats | public/gallery.js:109-114 | The count of images and the sum of their sizes. |
| GalleryView.GalleryManager.UpdateFilters | public/gallery.js:116-124 | The model and size selects show "All" and then the distinct present values, sorted. Each keeps its value when still offered. |
| GalleryView.GalleryManager.UpdateSelectOptions | public/gallery.js:126-146 | Keeps the first option and then the sorted options. The previous value stays selected when it is still offered. |
| GalleryView.GalleryManager.AppendAll | public/gallery.js:135-140 | Appends one unflagged option per value; the selection is unchanged. |
| GalleryView.GalleryManager.ApplyFilters | public/gallery.js:148-161 | The filters are read from the selects, and the filtered list is the images that pass them. |
| GalleryView.GalleryManager.ToggleView | public/gallery.js:217-221 | Grid becomes list and list becomes grid. |
| GalleryView.GalleryManager.OpenModal | public/gallery.js:223-226 | The image becomes the one shown. |
| GalleryView.GalleryManager.CloseModal | public/gallery.js:255-259 | No image is shown. |
| GalleryView.GalleryManager.DownloadCurrentImage | public/gallery.js:261-272 | No link without a shown image; otherwise a link to its URL under its file name. |
| GalleryView.GalleryManager.CopyCurrentImageUrl | public/gallery.js:274-306 | Nothing without a shown image; otherwise the page origin followed by the image's URL. |
| DirectView.CountColour | public/direct.js:74-80 | Red above the upper limit, yellow above the lower one, grey otherwise, each exactly. |
| DirectView.PromptColour | public/direct.js:74-80 | The prompt counter is red past 900 and yellow from 801 to 900. |
| DirectView.SystemColour | public/direct.js:87-93 | The system counter is red past 450 and yellow from 401 to 450. |
| DirectView.ColourMonotone | public/direct.js:74-93 | Typing more never makes a counter less alarming. |
| DirectView.SubmitRequest | public/direct.js:99-119 | Nothing is sent exactly when the trimmed prompt is empty. Otherwise the trimmed prompt and the selects are sent, with the trimmed system prompt only when it is non-empty. |
| DirectView.BlankPromptNotSent | public/direct.js:105-108 | A whitespace-only prompt is never sent. |
| DirectView.FailureMessage | public/direct.js:131-144 | "Failed to generate image: " + the server's error, or + "HTTP <status>: <text>", or + the fetch error. |
| DirectView.ShownFor | public/direct.js:163-171 | The result panel shows the server's values, falling back to the request's when they are missing. |
| DirectView.HistoryItemFor | public/direct.js:189-199 | The history entry takes the server's model, size and quality or the request's, and the request's prompts and the clock. |
| DirectView.Unshifted | public/direct.js:205-208 | The new item first, then the old history, cut at twenty. |
| DirectView.Reversed | public/direct.js:205 | Reversal keeps the length. |
| DirectView.ReversedAt | public/direct.js:205 | Reversal puts item i at position n - 1 - i. |
| DirectView.AddAllNewestFirst | public/direct.js:188-215 | Adding items one by one leaves them newest first in front of the old history, cut at twenty. |
| DirectView.HistoryKeepsNewest | public/direct.js:208 | Twenty or more additions leave exactly the twenty newest, last added first. |
| DirectView.DefaultChoice | public/direct.js:331-349 | A rebuilt dropdown keeps its previous value when offered, else the preferred default when offered, else the first option; an empty dropdown has the value "". |
| DirectView.DirectImageGenerator.constructor | public/direct.js:2-8 | The stored history and system prompt are loaded, the prompt box is empty, and the system box holds the stored prompt with its counter. |
| DirectView.DirectImageGenerator.InitializePricing | public/direct.js:392-396 | The quality and size selects offer what the chosen model offers, keeping their values when they can. The price of the resulting choice is shown. |
| DirectView.DirectImageGenerator.UpdateCharCount | public/direct.js:70-81 | The counter is the prompt's `length`, in UTF-16 code units, coloured by the prompt limits. |
| DirectView.DirectImageGenerator.UpdateSystemCharCount | public/direct.js:83-94 | The counter is the system prompt's `length`, in UTF-16 code units, coloured by the system limits. |
| DirectView.DirectImageGenerator.HandleSubmit | public/direct.js:96-148 | A blank prompt shows the error and changes nothing else. Otherwise the request is sent, and the answer is shown and added to the history, or the failure message is shown. |
| DirectView.DirectImageGenerator.ShowResponse | public/direct.js:131-144 | A result is shown and added to the history; a failure shows its message and leaves both unchanged. |
| DirectView.DirectImageGenerator.AddToHistory | public/direct.js:188-215 | The history becomes the new entry in front of the old history, cut at twenty. |
| DirectView.DirectImageGenerator.ClearHistory | public/direct.js:238-241 | The history is empty. |
| DirectView.DirectImageGenerator.SaveSystemPrompt | public/direct.js:243-251 | A non-blank system prompt is stored trimmed, with the notice. A blank one shows the error and stores nothing. |
| DirectView.DirectImageGenerator.ClearSystemPrompt | public/direct.js:253-258 | The box and its counter are cleared, the stored prompt is forgotten, and the notice is shown. |
| DirectView.DirectImageGenerator.LoadSystemPrompt | public/direct.js:260-266 | A non-empty stored prompt fills the box and its counter; otherwise nothing changes. |
| DirectView.DirectImageGenerator.UpdateDropdownsForModel | public/direct.js:301-313 | The quality select gets the model's qualities and the size select every size the model offers, each keeping its value when offered. |
| DirectView.DirectImageGenerator.UpdateQualityDropdown | public/direct.js:315-350 | The quality select is rebuilt with `auto` as the preferred default. |
| DirectView.DirectImageGenerator.UpdateSizeDropdown | public/direct.js:352-389 | The size select is rebuilt with `1024x1024` as the preferred default. |
| DirectView.DirectImageGenerator.RebuildDropdown | public/direct.js:331-349 | The select holds exactly the options, and its value is the default choice. |
| DirectView.DirectImageGenerator.UpdateCurrentPrice | public/direct.js:398-412 | The price text is the formatted direct cost of the current choice; it is "N/A" exactly when that has no price. |

## Left out

- The HTTP routes (src/routes/), the server set-up (src/server.ts), the chat page (public/chat.js) and the start page (public/app.js) are callers of the core and are not modelled. src/utils/Paths.ts is not part of this model: the images directory is a parameter, standing for `FileUtil.getImagesDirectory()` (src/utils/fileUtils.ts:89-91).
- `ensureDirectoryExists` (src/utils/fileUtils.ts:10-14), the file write of `saveBase64Image` and the streamed `downloadImage` are reduced to their outcomes: an optional thrown value, or an HTTP status or request error. A directory error escapes `saveBase64Image` unprefixed, since it is thrown outside the `try`. The bytes written and `statSync` after the write are not modelled.
- FileUtil.JoinPath: joins with one separator and does not normalise `..`, `.` or repeated separators as `path.join` does.
- The provider SDK calls (`images.generate`, `responses.create`) are replies given as parameters. Message content arrays are modelled as plain strings.
- The clock (`new Date().toISOString()`, `Date.now()`) and `Math.random` ids are parameters. Each reading of the clock is a parameter of its own, so two readings may differ. `toLocaleString` and durations are not modelled.
- Asynchrony and concurrency are not modelled; every operation runs to completion in one step.
- The session object returned by `processMessage` is a value. The model does not capture that in the source it aliases the stored session.
- Prices are reals. Floating-point rounding of `toFixed` and of the token price is not modelled; `toFixed` is a parameter.
- `formatFileSize` (src/services/galleryService.ts:198-206, public/gallery.js:327-335) uses logarithms and floating point and is not modelled; the gallery totals keep the byte count.
- Rendering is not modelled:
  - the HTML pricing tables (public/pricing.js:186-266);
  - `renderGallery`, `createImageCard` and `renderEmptyState`;
  - `loadHistory`'s markup;
  - the modal's detail fields;
  - loading indicators, `hideError`, `scrollIntoView`;
  - the timing of `showTemporaryMessage`;
  - `handleKeyDown`;
  - the clipboard feedback.
- The page-level global functions of public/direct.js (`openFullSize`, `openImageFullSize`, `downloadImage`, `generateAnother`, `hideError`, `clearHistory`) are not modelled.
- Parsing of `localStorage` JSON is not modelled: the stored history and default system prompt are values. Logging to the console is left out.
- JavaScript property lookups through the prototype chain (a key such as `constructor` in a price table) are not modelled.
- Text.SortLex: orders strings by character code, which matches JavaScript's UTF-16 code-unit order only for characters of the Basic Multilingual Plane.
- Text.Trim: carries no contract of its own; what `trim()` promises is stated in Text.TrimShape and Text.TrimEmpty.
- Pricing.FormatPrice: the digits come from the `toFixed` parameter, so only the "N/A" case and the leading '$' are stated, not the thresholds' digit counts.
- Pricing.FormatTokens: counts of 1000 and more are formatted through the `toFixed` parameter, so only their "N/A" case is stated.
- OpenAIService.ImageUrl: the lookup `response.data?.[0]?.url` carries no contract of its own; GenerateAndSaveImage states its effect.
- DirectView.DirectImageGenerator.constructor: does not itself run `initializePricing` (public/direct.js:7). The page's start-up is the constructor followed by InitializePricing.
- GalleryView.GalleryManager.constructor: does not itself run `loadGallery` (public/gallery.js:14). The page's start-up is the constructor followed by LoadGallery.
