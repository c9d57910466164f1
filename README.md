# 동아 일분 — a Dafny model of the news site's core

The site is a single-page Korean news application in React and Next.js. It has:

- a home feed that interleaves interactive features with ordinary articles;
- an article overlay that the reader pages through with a horizontal swipe;
- a composer that turns a title and a memo into an article with a text-generation service;
- nine interactive "experiences", each a small state machine driven by clicks and timers;
- three services: an AI-analysis client with a quota lockout, retries and a cache, an image re-uploader, and a regional weather lookup;
- a server route that writes generated articles to the database.

This project models that core in Dafny and proves what its code promises.

## Conventions

- **One module per source file.** Each module is named after its component: `HomePage`, `ArticlePage`, `PriceCollusion`, `GeminiService` and so on.
  - `Strings`, `Seqs`, `Articles` and `Wrappers` hold the JavaScript string and array operations the code relies on, and the shared article record.
- **React state becomes classes.** A component whose state the handlers update becomes a `class` with one field per `useState`/`useRef`. Each handler becomes a `method` with a `modifies` frame.
  - An effect that runs as a consequence of an event is folded into that event's method.
  - A timer or interval firing is a method of its own. Its `requires` says when the timer is pending.
- **Pure code becomes functions.** Pure computations become functions with named results: `useMemo`s, the route handler, `mapWeatherCode`, the cart updater and the filters.
  - Loops in the source stay loops: the home-feed interleaving, the scroll-tracking loop and the image pipeline. Each is proved against a function.
- **Outside inputs become parameters.** Clock readings, random choices, network and AI replies, and storage results are parameters.
  - An AI or database call that can time out is a `Race`: it either settled with a result or timed out.
- **The article catalogue is a parameter.** The static catalogue in constants.ts is not part of this model.

## Model

| member | source | states |
|---|---|---|
| Articles.IndexOfId | App.tsx:16 | the index found holds the id and no earlier article does; absent exactly when no article has the id |
| Articles.FindById | App.tsx:16 | `find` by id succeeds iff some article has the id, and returns the first such article |
| AppShell.App.constructor | App.tsx:7-8 | nothing is open and the category is HOME |
| AppShell.App.ArticleSelect | App.tsx:10-13 | opens the article; the category is kept |
| AppShell.App.BackFrom | App.tsx:15-21 | closes the article, and moves to the interactive category iff the closed article is an interactive catalogue article (by category or by flag) |
| AppShell.App.Back | App.tsx:15-21 | `handleBack` on the current state: same outcome, judged on the article that was open |
| AppShell.App.SetCategory | App.tsx:33-36 | selects the category and closes any article |
| Seqs.Filter | pages/HomePage.tsx:72 | `filter` never lengthens the list |
| Seqs.FilterMembers | pages/HomePage.tsx:72 | what `filter` keeps is exactly the members that pass |
| Seqs.RejectMembers | pages/HomePage.tsx:73 | what the negated filter keeps is exactly the members that fail |
| Seqs.FilterAppend | pages/HomePage.tsx:72-73 | both filters distribute over concatenation |
| Seqs.FilterRejectSplit | pages/HomePage.tsx:72-73 | the two filters split a list into two parts that together are a permutation of it |
| Seqs.FilterAll | pages/HomePage.tsx:72-73 | when every member passes, the filter keeps everything and its negation nothing |
| Seqs.FilterNone | pages/HomePage.tsx:72-73 | when no member passes, the filter keeps nothing and its negation everything |
| HomePage.InterleaveMultiset | pages/HomePage.tsx:75-90 | the HOME mix is a permutation of interactive ++ general, so nothing is lost or duplicated |
| HomePage.Interleave | pages/HomePage.tsx:75-90 | the reference order of the HOME feed that the loop in Mix is proved to build; InterleaveMultiset, InterleaveFilter, InterleaveReject and InterleaveRound state its properties |
| HomePage.InterleaveFilter | pages/HomePage.tsx:75-90 | the interactive articles appear in the mix in their original order |
| HomePage.InterleaveReject | pages/HomePage.tsx:75-90 | the general articles appear in the mix in their original order |
| HomePage.InterleaveSkipRounds | pages/HomePage.tsx:78-89 | after k full rounds, the rest of the mix is the mix of the remaining lists |
| HomePage.InterleaveRound | pages/HomePage.tsx:78-89 | round j of the mix is one interactive article followed by two general ones |
| HomePage.InterleaveNoGeneral | pages/HomePage.tsx:78-89 | with no general articles, the mix is the interactive list |
| HomePage.InterleaveGeneralTail | pages/HomePage.tsx:78-89 | once the interactive list runs out, the rest of the mix is the leftover general articles |
| HomePage.InterleaveInteractiveTail | pages/HomePage.tsx:78-89 | once the general list runs out, the rest of the mix is the leftover interactive articles, one per round |
| HomePage.InterleaveLastGeneral | pages/HomePage.tsx:78-89 | a single general article lands right after the first interactive one |
| HomePage.RoundClose | pages/HomePage.tsx:79-88 | one loop round keeps "pushed so far ++ mix of the rest == whole mix" |
| HomePage.Mix | pages/HomePage.tsx:75-90 | the `while` loop builds exactly the interleaving (one interactive, then up to two general, per round) |
| HomePage.Filtered | pages/HomePage.tsx:68-99 | an ordinary category lists exactly the articles filed under it, the "most popular" category exactly the non-interactive ones, each as the order-preserving filter of the article list |
| HomePage.FilteredArticles | pages/HomePage.tsx:68-99 | `filteredArticles` computes the category feed, using the loop for HOME |
| HomePage.HomeIsPermutation | pages/HomePage.tsx:70-90 | HOME lists every article exactly once |
| HomePage.HomeKeepsOrder | pages/HomePage.tsx:70-90 | HOME keeps the relative order of the interactive articles and of the general ones |
| HomePage.Displayed | pages/HomePage.tsx:101-103 | the visible feed is the prefix of length min(limit, feed length) |
| HomePage.ReadMoreShowsHidden | pages/HomePage.tsx:452-455 | "read more" is offered iff some articles are hidden, and pressing it only extends the visible prefix |
| HomePage.NewArticle | pages/HomePage.tsx:146-157 | the composed article takes each generated field, or the page's default when that field is missing, and carries the form's image style and the creation time |
| HomePage.PatchThumbnail | pages/HomePage.tsx:188-190 | only thumbnails change, and only the target article's |
| HomePage.PatchTouchesOnlyTarget | pages/HomePage.tsx:188-190 | every other article is left unchanged |
| HomePage.Feed.constructor | pages/HomePage.tsx:24-41 | the catalogue, a limit of 8, an empty form with the default image style, the panel closed |
| HomePage.Feed.ViewingArticle | pages/HomePage.tsx:105-107 | the overlay article exists iff the id is truthy and some article has it, and is then that article |
| HomePage.Feed.ReadMore | pages/HomePage.tsx:455 | raises the limit by 6 |
| HomePage.Feed.EditForm | pages/HomePage.tsx:227-266 | the form takes the edited fields |
| HomePage.Feed.OpenPanel | pages/HomePage.tsx:373 | opens the composer |
| HomePage.Feed.CreateArticle | pages/HomePage.tsx:110-201 | a blank title or memo, or a failed generation, changes nothing; otherwise the new article is prepended, the form is reset and the panel is closed |
| HomePage.Feed.ApplyThumbnail | pages/HomePage.tsx:164-195 | the background image, when non-empty, replaces only the new article's thumbnail |
| HomePage.Feed.ClickCategory | pages/HomePage.tsx:356-369 | the limit returns to 8 and the overlay closes; the category becomes the clicked one, except that closing an open interactive article lands on the interactive category |
| ArticlePage.Dispatch | pages/ArticlePage.tsx:29-144 | exactly one experience per article: the normal page iff not interactive; each feature by its id, Neuralink by id or title; otherwise a placeholder |
| ArticlePage.NeuralinkByTitle | pages/ArticlePage.tsx:36 | an interactive article whose title names Neuralink opens that experience whatever its id |
| ArticlePage.SwipeFarEnoughIsRatio | pages/ArticlePage.tsx:58-61 | the integer threshold test is the source's `abs(offset) / width >= 0.22` |
| ArticlePage.SwipeFarEnough | pages/ArticlePage.tsx:58-61 | the swipe-distance test in integers; SwipeFarEnoughIsRatio states that it is the page's `progress >= 0.22` for every positive width |
| ArticlePage.SwipeTarget | pages/ArticlePage.tsx:58-67 | a long enough swipe left selects the next catalogue article and a swipe right the previous one; an article not in the catalogue counts as index -1 |
| ArticlePage.SwipeNoWrap | pages/ArticlePage.tsx:62-67 | no wrap-around past either end of the catalogue |
| ArticlePage.SwipeGesture.constructor | pages/ArticlePage.tsx:20-22 | not dragging, offset 0, no start point |
| ArticlePage.SwipeGesture.PointerDown | pages/ArticlePage.tsx:39-44 | ignored on an interactive article; otherwise records the start point and starts dragging |
| ArticlePage.SwipeGesture.PointerMove | pages/ArticlePage.tsx:46-49 | while dragging, the offset is the pointer's distance from the start |
| ArticlePage.SwipeGesture.PointerUp | pages/ArticlePage.tsx:51-73 | every release ends the drag and zeroes the offset; only a real drag with a container and a selection callback asks for the swipe target |
| PriceCollusion.Total | components/PriceCollusionExperience.tsx:33 | an empty cart totals 0; a cart of positive quantities never totals below 0 |
| PriceCollusion.TotalAppend | components/PriceCollusionExperience.tsx:33 | the total of concatenated carts is the sum of their totals |
| PriceCollusion.RoundHalfUp | components/PriceCollusionExperience.tsx:35 | `Math.round`: the result is within half a unit of the quotient, with halves rounded up |
| PriceCollusion.HonestTotal | components/PriceCollusionExperience.tsx:35 | a multiple of 10 within 5 of three quarters of the total |
| PriceCollusion.DiffBounds | components/PriceCollusionExperience.tsx:35-36 | the collusion difference is about a quarter of the total, and not negative from 20 up |
| PriceCollusion.BandOf | components/PriceCollusionExperience.tsx:40-54 | each band holds exactly its own range of differences; no band for a difference of 0 or less |
| PriceCollusion.BandMonotone | components/PriceCollusionExperience.tsx:40-54 | a larger difference never lands in a cheaper comparison |
| PriceCollusion.CartStats | components/PriceCollusionExperience.tsx:32-57 | the total is the cart's sum; the honest total is three quarters of it rounded to a multiple of 10 (within 5 won); difference = total − honest total; the comparison and icon are those of the difference's band, shown iff the difference is positive |
| PriceCollusion.ItemIndex | components/PriceCollusionExperience.tsx:69 | finds the first line of the product, or reports that it is absent |
| PriceCollusion.Remove | components/PriceCollusionExperience.tsx:72 | removing never lengthens the cart |
| PriceCollusion.RemoveMembers | components/PriceCollusionExperience.tsx:72 | removing keeps exactly the lines of other products |
| PriceCollusion.SetQuantity | components/PriceCollusionExperience.tsx:73 | the cart keeps its length |
| PriceCollusion.SetQuantityLines | components/PriceCollusionExperience.tsx:73 | only the product's lines get the new quantity; every other line is unchanged |
| PriceCollusion.UpdateCartEffect | components/PriceCollusionExperience.tsx:68-77 | the updater: other products are kept; the product's line is removed at 0 or below, otherwise updated; a new product is appended with quantity 1 only for a positive delta |
| PriceCollusion.UpdateCart | components/PriceCollusionExperience.tsx:67-77 | the `setCart` updater; what it does is stated by UpdateCartEffect, UpdateRemovesOneLine, UpdateCartIncrement and UpdateKeepsValid |
| PriceCollusion.RemoveUnique | components/PriceCollusionExperience.tsx:72 | in a valid cart, removing a product deletes exactly its single line |
| PriceCollusion.UpdateRemovesOneLine | components/PriceCollusionExperience.tsx:71-72 | dropping to 0 or below deletes exactly that line |
| PriceCollusion.ValidAfterRemove | components/PriceCollusionExperience.tsx:72 | deleting a line keeps ids unique and quantities positive |
| PriceCollusion.ValidAfterSetQuantity | components/PriceCollusionExperience.tsx:73 | a positive new quantity keeps the cart valid |
| PriceCollusion.ValidAfterAppend | components/PriceCollusionExperience.tsx:75 | appending a new product keeps the cart valid |
| PriceCollusion.UpdateKeepsValid | components/PriceCollusionExperience.tsx:67-77 | the updater keeps ids unique and every quantity at least 1 |
| PriceCollusion.TotalSetQuantity | components/PriceCollusionExperience.tsx:71-73 | setting one line's quantity changes the total by price × (new − old) |
| PriceCollusion.UpdateCartIncrement | components/PriceCollusionExperience.tsx:71-73 | a line that stays positive is updated in place |
| PriceCollusion.AddOneRaisesTotal | components/PriceCollusionExperience.tsx:67-77 | pressing "+" raises the total by exactly the product's price |
| PriceCollusion.AddOneToLine | components/PriceCollusionExperience.tsx:71-73 | "+" on a product already in the cart adds its price |
| PriceCollusion.AddOneNewLine | components/PriceCollusionExperience.tsx:75 | "+" on a new product adds its price |
| PriceCollusion.Kiosk.constructor | components/PriceCollusionExperience.tsx:24-29 | empty cart, nothing revealed, no report |
| PriceCollusion.Kiosk.UpdateQuantity | components/PriceCollusionExperience.tsx:67-80 | the cart is the updater's result, and it stays valid; the report is cleared and the explanation hidden |
| PriceCollusion.Kiosk.ResetCart | components/PriceCollusionExperience.tsx:82-88 | everything back to the initial state |
| PriceCollusion.Kiosk.RevealTick | components/PriceCollusionExperience.tsx:60-65 | reveals one more receipt line while fewer than the cart's lines are shown |
| SeongsuBridge.ActiveIndex | components/SeongsuBridgeExperience.tsx:49-62 | the highlighted sentence is the last one spanning the screen centre, or -1 when none does |
| SeongsuBridge.ActiveSentenceIndex | components/SeongsuBridgeExperience.tsx:49-62 | the `forEach` loop computes that index |
| SeongsuBridge.BridgeExperience.constructor | components/SeongsuBridgeExperience.tsx:27-31 | countdown 10, countdown phase, no sentence highlighted, no blackout, guard off |
| SeongsuBridge.BridgeExperience.CountdownTick | components/SeongsuBridgeExperience.tsx:34-43 | counts down to 0 and then enters the bridge scene; phases only move forward |
| SeongsuBridge.BridgeExperience.CollapseEnd | components/SeongsuBridgeExperience.tsx:103-112 | only the first collapse end starts the blackout and schedules the article |
| SeongsuBridge.BridgeExperience.BlackoutEnd | components/SeongsuBridgeExperience.tsx:103-112 | the article phase begins, the blackout lifts, and the first scroll check runs |
| SeongsuBridge.BridgeExperience.Scroll | components/SeongsuBridgeExperience.tsx:45-67 | scrolling is tracked only in the article phase |
| Neuralink.SyncCount | components/NeuralinkExperience.tsx:238-239 | the sync count is at most 3; it is 3 iff every language is decoded and 0 iff none is |
| Neuralink.DecodeRaisesSync | components/NeuralinkExperience.tsx:101-104 | decoding a new language raises the sync count by one |
| Neuralink.NoneDecodedComplete | components/NeuralinkExperience.tsx:88-94 | the initial flags cover every language and count 0 |
| Neuralink.NeuralinkExperience.constructor | components/NeuralinkExperience.tsx:88-94 | nothing decoded, nothing pending, no report |
| Neuralink.NeuralinkExperience.Decode | components/NeuralinkExperience.tsx:96-106 | ignored for a decoded language or while a decode is pending; otherwise starts decoding it |
| Neuralink.NeuralinkExperience.DecodeDone | components/NeuralinkExperience.tsx:96-106 | marks the pending language decoded, leaves the others unchanged, and raises the count by one |
| Neuralink.NeuralinkExperience.ReportDue | components/NeuralinkExperience.tsx:108-116 | the report appears once everything is decoded |
| Neuralink.NeuralinkExperience.Reset | components/NeuralinkExperience.tsx:118-122 | all flags cleared, count 0, report hidden |
| RealEstateFraud.Push | components/RealEstateFraudExperience.tsx:29 | keeps the newest four messages, then adds the new one last |
| RealEstateFraud.PushKeepsBounds | components/RealEstateFraudExperience.tsx:29 | at most five messages on screen, all from the script |
| RealEstateFraud.FraudExperience.constructor | components/RealEstateFraudExperience.tsx:15-17 | step 0, no messages, not revealed |
| RealEstateFraud.FraudExperience.NextStep | components/RealEstateFraudExperience.tsx:33-50 | below step 3: advance, show a message and schedule a second one; reaching step 3 clears the screen |
| RealEstateFraud.FraudExperience.DelayedMessage | components/RealEstateFraudExperience.tsx:48 | the delayed message is pushed; after the final click it lands on the cleared screen |
| RealEstateFraud.FraudExperience.Whisper | components/RealEstateFraudExperience.tsx:33-40 | the interval, running only in steps 1 and 2, pushes a message |
| RealEstateFraud.FraudExperience.Reveal | components/RealEstateFraudExperience.tsx:52-57 | at step 3 the reveal shows and the screen is clear |
| AITemptation.CurrentItem | components/AITemptationExperience.tsx:47 | the current line, or the last one once the script is over |
| AITemptation.TextNonEmpty | components/AITemptationExperience.tsx:12-32 | every line has something to type |
| AITemptation.ToxicFromFourthLine | components/AITemptationExperience.tsx:101 | the toxic phase is exactly lines 3 to 9 |
| AITemptation.ApplyUpdates | components/AITemptationExperience.tsx:51-71 | the updates the effects queue in one commit are applied in order: no update leaves the state as it was, and a final write to the text, the index or the typing flag decides that field |
| AITemptation.AdvanceAsWritten | components/AITemptationExperience.tsx:51-71 | the commit after "next" on a finished line moves to the next step, with both effects run on the render that still holds the old character index |
| AITemptation.AdvanceAsWrittenStopsTyping | components/AITemptationExperience.tsx:51-71 | as written, advancing from a fully typed line starts the next one empty at index 0 with its characters scheduled, but leaves the typing flag off exactly after lines 0, 2, 5, 7 and 8 |
| AITemptation.Experience.constructor | components/AITemptationExperience.tsx:41-57 | line 0, nothing typed, typing on, no epilogue |
| AITemptation.Experience.TypeTick | components/AITemptationExperience.tsx:59-71 | types one more character of the line; typing stays on iff characters remain |
| AITemptation.Experience.Next | components/AITemptationExperience.tsx:87-99 | restart once the epilogue has reached its last stage (the restart button); complete the line while typing; otherwise advance and type the next line from its start with typing on, or, past the last line, leave the typing state as it was |
| AITemptation.Experience.StartLine | components/AITemptationExperience.tsx:51-57 | the new line starts empty with typing on |
| AITemptation.Experience.EpilogueTick | components/AITemptationExperience.tsx:74-85 | the epilogue advances one stage at a time, up to 4 |
| JeonTaeil.MatchesAnyIff | components/JeonTaeilExperience.tsx:56 | `some(kw => text.includes(kw))` holds iff some keyword occurs in the text |
| JeonTaeil.MatchesAny | components/JeonTaeilExperience.tsx:56 | `keywords.some(kw => text.includes(kw))`; MatchesAnyIff states its meaning |
| JeonTaeil.QuestionKeywordSuffices | components/JeonTaeilExperience.tsx:110 | a keyword in the question unlocks, whatever the answer says |
| JeonTaeil.Unlock | components/JeonTaeilExperience.tsx:46-62 | the locker keeps its size |
| JeonTaeil.UnlockEntries | components/JeonTaeilExperience.tsx:46-62 | a locked piece unlocks iff one of its keywords occurs; nothing else changes |
| JeonTaeil.UnlockChangesIffNew | components/JeonTaeilExperience.tsx:45-64 | the locker changes iff something new unlocks; unlocked pieces stay as they are |
| JeonTaeil.MaxUnlockedStageIsMax | components/JeonTaeilExperience.tsx:66-67 | the highest stage among the unlocked pieces, or 0 when none is unlocked |
| JeonTaeil.MaxUnlockedStage | components/JeonTaeilExperience.tsx:66-67 | the highest unlocked stage, 0 when none; MaxUnlockedStageIsMax states it |
| JeonTaeil.LockerStagesAtMostFour | components/JeonTaeilExperience.tsx:19-25 | the highest unlocked stage is at most 4 |
| JeonTaeil.NothingNewOnceAllUnlocked | components/JeonTaeilExperience.tsx:72 | once every piece is unlocked, nothing new can unlock |
| JeonTaeil.UnlockKeepsLocker | components/JeonTaeilExperience.tsx:46-62 | unlocking keeps the locker's pieces in order with their ids, titles and stages, so the highest unlocked stage stays at most 4 |
| JeonTaeil.UnlockStepKeepsState | components/JeonTaeilExperience.tsx:64-75 | an unlock keeps the investigation's state valid; it can only happen before the end |
| JeonTaeil.StageCanReachFive | components/JeonTaeilExperience.tsx:66-70 | one mention of the government unlocks stage 4 at once, so the stage jumps past the last stage to 5 |
| JeonTaeil.Investigation.constructor | components/JeonTaeilExperience.tsx:28-33 | no messages, the initial locker, stage 1 |
| JeonTaeil.Investigation.Type | components/JeonTaeilExperience.tsx:213 | the input box takes the typed text |
| JeonTaeil.Investigation.CheckUnlocks | components/JeonTaeilExperience.tsx:44-76 | with a new unlock: store the locker, move the stage past the highest unlocked stage when it has caught up (below 4), and finish once everything is unlocked; otherwise nothing changes; the stage never decreases |
| JeonTaeil.Investigation.Send | components/JeonTaeilExperience.tsx:78-84 | ignored (nothing changes, the awaited question included) for a blank question, while a reply is pending or once finished; otherwise the question joins the chat, the box is cleared and the question is the one the reply will be checked with |
| JeonTaeil.Investigation.Receive | components/JeonTaeilExperience.tsx:102-116 | the reply (or "no record" for an empty one) joins the chat, and the reply followed by a space and the question is checked exactly as `CheckUnlocks` does: a new unlock stores the new locker, moves the stage and finishes once all is unlocked, otherwise nothing changes; a failed call adds the error line and changes nothing else |
| ChurchMystery.Sentences | components/ChurchMysteryExperience.tsx:4-14 | each script has three sentences |
| ChurchMystery.Story.constructor | components/ChurchMysteryExperience.tsx:17-23 | light mode, nothing typed |
| ChurchMystery.Story.CharTick | components/ChurchMysteryExperience.tsx:36-41 | the line on screen is always a prefix of the sentence, one character longer per tick |
| ChurchMystery.Story.SentenceDone | components/ChurchMysteryExperience.tsx:43-49 | the finished sentence joins the list; typing is finished iff all three are done |
| ChurchMystery.Story.MainAction | components/ChurchMysteryExperience.tsx:54-71 | from light mode, restart with the dark script; in dark mode with typing finished, open the report; otherwise nothing |
| ChurchMystery.Story.BackToStart | components/ChurchMysteryExperience.tsx:184 | only light mode returns; the dark sentences stay on screen |
| ExperienceSection.StatusOf | components/ExperienceSection.tsx:21-27 | one colour per count; critical iff at least four actions |
| ExperienceSection.ClickedBound | components/ExperienceSection.tsx:15-19 | at most four distinct actions, and four iff all were taken |
| ExperienceSection.Section.constructor | components/ExperienceSection.tsx:4-6 | no actions, no summary |
| ExperienceSection.Section.HandleAction | components/ExperienceSection.tsx:15-19 | a repeated action is ignored; a new one counts once; the overlay is up iff all four were taken |
| ExperienceSection.Section.ConfirmOverlay | components/ExperienceSection.tsx:104 | shows the summary |
| CreateArticle.WithTimeout | api/create-article/route.ts:13-18 | the raced call's own outcome, or a TIMEOUT error |
| CreateArticle.FallbackGenerated | api/create-article/route.ts:64-68 | on failure: the memo with a delay notice, the title as summary, category "국내" |
| CreateArticle.AiResult | api/create-article/route.ts:37-69 | the parsed reply when the call settles in time, otherwise the fallback |
| CreateArticle.InsertPayload | api/create-article/route.ts:76-85 | each stored field is the generated or given value when truthy, else its default |
| CreateArticle.Mock | api/create-article/route.ts:96-107 | the temporary article repeats the payload's content under a `temp-` id, keeps the raw image style, takes the creation time read after the failed insert and is marked temporary |
| CreateArticle.Post | api/create-article/route.ts:20-115 | 400 iff the title or body is missing; 500 iff the request or client fails; otherwise the row stored is the insert payload built from the model's reply (or its fallback) with the creation time read before the insert, answered with the id the database returned, and when storing fails or times out the answer is the temporary article made from that payload with the id and creation time read in the failure handler |
| CreateArticle.AiFailureKeepsMemo | api/create-article/route.ts:61-108 | when generation fails, the saved or mock article still carries the user's memo and the title |
| CreateArticle.StorageFailureAnswersMock | api/create-article/route.ts:92-108 | a storage failure or timeout still answers 200 with a temporary article that differs from the would-be row only in its id, its raw image style and its later creation time |
| ImageUpload.ContentType | services/imageUploadService.ts:27 | the header when truthy, else image/jpeg |
| ImageUpload.Extension | services/imageUploadService.ts:28 | the second '/'-piece when non-empty, else "jpg" (no '/' or nothing after it); never empty and never containing '/' |
| ImageUpload.MissingHeaderGivesJpeg | services/imageUploadService.ts:27-28 | a missing header gives the extension "jpeg" |
| ImageUpload.FinalFileName | services/imageUploadService.ts:31-35 | the given name with the timestamp, or news-timestamp-random, followed by the extension |
| ImageUpload.Request | services/imageUploadService.ts:18-43 | storage is asked for iff the URL is not already in storage and the fetch succeeded, with that file name and content type |
| ImageUpload.UploadExternal | services/imageUploadService.ts:12-58 | URLs already in storage pass through; success iff fetch and upload succeed; on failure the original URL comes back with an error |
| ImageUpload.UploadNeverLosesImage | services/imageUploadService.ts:52-56 | the answer always carries a usable URL: the public one or the original |
| ImageUpload.ProcessArticleImages | services/imageUploadService.ts:63-74 | the `for` loop computes the processed map |
| ImageUpload.ProcessedExactly | services/imageUploadService.ts:63-74 | exactly the keys with a non-empty URL are processed, each mapped to its upload's URL |
| GeminiService.CacheKey | services/geminiService.ts:6 | the prefix `climate_cache_` followed by type_identifier |
| GeminiService.AnalysisKeysDistinct | services/geminiService.ts:49 | different steps use different cache keys |
| GeminiService.QuotaMentionAnywhere | services/geminiService.ts:20-26 | a message containing "429" anywhere is a quota error |
| GeminiService.IsQuotaError | services/geminiService.ts:20-26 | the quota test on status, code and message; its meaning is stated by QuotaMentionAnywhere, NotQuotaMessage and EmptyResponseRetried |
| GeminiService.NonEmpty | services/geminiService.ts:63-64 | an empty reply becomes the "Empty response" error |
| GeminiService.NotQuotaMessage | services/geminiService.ts:20-26 | a message without the quota markers is not a quota error |
| GeminiService.EmptyResponseRetried | services/geminiService.ts:20-38 | an empty reply is retried, not treated as a quota error |
| GeminiService.StopAt | services/geminiService.ts:17-39 | the retries stop at the first success or quota error, or when retries run out |
| GeminiService.DefaultBackoff | services/geminiService.ts:35-38 | with the defaults (two retries, 3 s) at most three calls are made and at most two waits happen, of 3000 ms and then 4500 ms; no wait follows the last failure |
| GeminiService.BackoffShift | services/geminiService.ts:37 | the next retry's schedule is this one shifted by one |
| GeminiService.Client.constructor | services/geminiService.ts:9 | no lockout; the given storage |
| GeminiService.Client.FetchWithRetry | services/geminiService.ts:11-41 | during the lockout: fail at once; otherwise return the first success, or after a quota error set a 60 s lockout and fail, or rethrow the last error, after the backoff waits |
| GeminiService.Client.GetClimateAnalysis | services/geminiService.ts:43-73 | a failing storage read rejects the call; otherwise a cached analysis is returned; a fresh one is cached and returned unless the storage write fails, in which case, as on any failure, the fallback or the default sentence is returned (never the empty cache); the lockout moves to 60 s after a quota error and is otherwise unchanged |
| WeatherService.RegionsDistinct | services/weatherService.ts:70 | the region list has no duplicates |
| WeatherService.RegionsAreTableKeys | services/weatherService.ts:8-17 | the region list is exactly the table's eight keys |
| WeatherService.MapWeatherCode | services/weatherService.ts:53-68 | clear iff code 0; rain and snow iff their code lists; cloudy otherwise |
| WeatherService.FallbackWeather | services/weatherService.ts:19-24 | the city with the "no information" placeholders |
| WeatherService.IntToString | services/weatherService.ts:43 | the decimal rendering, with a minus sign for negative numbers |
| WeatherService.FetchWeatherByCity | services/weatherService.ts:26-51 | an unknown city or a failed request gives the fallback; otherwise the rounded temperature and the mapped sky |
| WeatherService.UnknownCityNeedsNoRequest | services/weatherService.ts:27-28 | a city outside the region table gets the fallback, whatever the network would answer |
| WeatherService.ReadingIsNotFallback | services/weatherService.ts:41-46 | a real reading is never mistaken for the fallback |
| Strings.ContainsIff | components/JeonTaeilExperience.tsx:56 | `includes` holds iff the text contains the substring at some offset |
| Strings.Contains | components/JeonTaeilExperience.tsx:56 | `includes`; ContainsIff and ContainsAppend state its meaning |
| Strings.ContainsAppend | components/JeonTaeilExperience.tsx:110 | a substring of either half is a substring of the concatenation |
| Strings.TrimEmptyIff | pages/HomePage.tsx:111 | `!s.trim()` holds iff s is all white space |
| Strings.Trim | components/JeonTaeilExperience.tsx:79 | `trim`; TrimEmptyIff states when it is empty |
| Strings.SecondPiece | services/imageUploadService.ts:28 | `split('/')[1]` exists iff there is a '/', and is the text after the first '/' up to the next '/' or the end |
| Strings.NatToString | api/create-article/route.ts:97 | the decimal rendering is a non-empty string of digits |
| Strings.NatToStringRoundTrip | api/create-article/route.ts:97 | reading the rendering back gives the number |
| Strings.NatToStringInjective | pages/HomePage.tsx:147 | different timestamps give different ids |

## Left out

- Strings: JavaScript strings are sequences of UTF-16 code units, Dafny strings of Unicode scalar values. Lengths and indices agree for every text the model measures (the script lines and keywords are all in the Basic Multilingual Plane); a character outside it, such as an emoji, counts once here and twice in JavaScript.
- Rendering, styling, CSS animations, scrolling into view, theme colours, positions chosen at random for floating messages, and the clock in the masthead: these affect only presentation.
- Timers are events. A pending `setTimeout`/`setInterval` becomes a method whose `requires` says it is pending. Real durations appear only where they order events: a delayed message lands before the reveal, and a blackout comes before the article.
- Network, AI, database and storage calls become parameters (`Race`, `Call`, `FetchOutcome`, `Generation`, `Forecast`, and the `readFails`/`writeFails` flags of the analysis cache). The prompts and model names sent to them are not modelled.
- `JSON.parse` of the AI reply: the model receives the parsed fields, or a failure when the reply is not JSON. An empty reply counts as the parsed `{}`.
- The source-citation regular expression in JeonTaeilExperience.tsx (line 106): the extracted sources are display-only and are not modelled.
- `generateReport` in PriceCollusionExperience.tsx (lines 90-110) and its loading flag: one AI call whose text is only displayed.
- The background image-generation call in HomePage.tsx (lines 164-195): only its outcome is modelled, by `HomePage.Feed.ApplyThumbnail`. The loading flag `isGenerating` and the `alert` on failure are left out.
- AIJobsExperience is not part of this model; the article dispatcher only chooses it. (The climate article's experience is `ExperienceSection`, modelled above.)
- constants.ts is not part of this model. The article catalogue is a parameter of `AppShell.App` and `HomePage.Feed`.
- `Date.now()`, `toISOString()` and `Math.random()` are parameters. `reqId` and the console logging are left out.
- HomePage.Feed.CreateArticle: the click and the model's reply are one step. In the source the handler reads the form as it was at the click (its closure holds that render's `writeForm`), and the reset after the reply discards anything typed into the form while the reply was pending; the model has no step in between, so those lost edits are not captured. The `isGenerating` flag that disables the button meanwhile is left out with them.
- WeatherService.FetchWeatherByCity: takes the temperature already rounded to an integer, because floating-point `Math.round` is not modelled. Latitude and longitude appear only as data.
- WeatherService.UnknownCityNeedsNoRequest: holds for every name outside the eight regions. In JavaScript, `REGION_COORDINATES[cityName]` also finds the methods every object inherits (`toString`, `constructor`, …), so for those names a request with undefined coordinates is made; the model's table is a map without them.
- SeongsuBridge.ActiveIndex: the screen centre is taken as an integer, so the half pixel of an odd viewport height is not modelled.
- CreateArticle.Mock: the failure handler reads the clock twice, for the `temp-` id (`Date.now()`) and for `created_at`; the model takes them as one reading (`now`, `nowIso`), and no clock reading is related to another (the 5 s insert timeout only orders them in the source).
- GeminiService.Client.FetchWithRetry: the lockout is checked against one clock reading for the whole call rather than a fresh `Date.now()` per retry, and the backoff waits are returned rather than slept. The lockout time is module-global in the source and shared by every call in flight; the model runs one call at a time on one `Client`, so two overlapping analyses that interleave their retries and lockout updates are not modelled.
- GeminiService.Client.GetClimateAnalysis: the GoogleGenAI client's construction is folded into the call outcome.
- ArticlePage.SwipeFarEnoughIsRatio: states the ratio only for a positive width. With width 0, JavaScript's Infinity/NaN makes the swipe navigate iff the offset is not 0, which the integer test `SwipeFarEnough` reproduces.
- JeonTaeil.Evidence: a piece's `type` and `content` (JeonTaeilExperience.tsx:10-17) are display-only and are not modelled; the locker lemmas say nothing about them.
- JeonTaeil.Investigation: the chat message list stores roles and texts only. `isLoading` is the pending-reply flag; the `finally` that clears it is part of `Receive`.
- Neuralink.NeuralinkExperience.ReportDue: the report timer fires only while it is still due. Its cancellation, when the flags change before it fires, is not a separate event.

## Findings

| source | as written | input that shows it | evidently intended | confidence | as-written member | corrected member |
|---|---|---|---|---|---|---|
| components/AITemptationExperience.tsx:51-71 | When the line changes, the reset effect turns typing on. In the same pass, the typing effect still sees the previous line's `charIndex` and turns typing off again when that index is not below the new line's length. | Let line 0 (25 characters) finish typing and press "next": line 1 has 24 characters, so it is typed with the typing flag off, and a second press skips it instead of completing it. The same happens after lines 2, 5, 7 and 8. | every new line starts typing with the flag on, so a press while it types completes it | not executed | AITemptation.AdvanceAsWrittenStopsTyping | AITemptation.Experience.Next |
