# Founder Storys: a Dafny model of the studio, store and publishing rules

Founder Storys is a single-page web application for founder interviews. It has
a live broadcast studio, an admin dashboard that moderates founder applications
and publishes articles, an application form, and an article reader. All its
data lives in one in-memory store. This project models the parts of it that
carry logic, and proves what that logic promises.

- **Studio session** (`studio.dfy`, class `Studio.Session`). Being live and
  recording share one elapsed-seconds counter. A once-per-second `Tick` stops
  both and resets the counter when the limit is reached. Going live needs an
  enabled destination. The module also holds the participant roster
  (stage/mute/camera toggles), the banner list (at most one banner active),
  the destination list (add/toggle/remove), the chat, and the
  `formatTime`/`getGridClass` helpers.
- **Content store** (`data_context.dfy`, class `DataContext.Store`).
  Copy-on-write prepend, merge-by-id and delete-by-id over the interview list,
  the settings merge, and the mock sign-in, registration and sign-out.
- **Moderation and authoring** (`admin_dashboard.dfy`):
  - approve/reject status mapping, the role-filtered row list and the pending count;
  - the plan editor;
  - chip selection and custom category/tag entry;
  - keyword extraction and assembly;
  - the mock upload's progress reports;
  - the article form (class `AdminDashboard.ArticleForm`) with its three-image
    submission rule.
- **Founder application** (`apply.dfy`, class `Apply.ApplyForm`). Prefill,
  per-field edits, title truncation, the record a submission builds, and the
  idle → submitting → success progression.
- **Navigation** (`layout.dfy`). Where "Go Live" and "Apply" send a visitor,
  and which navigation link is highlighted.
- **Article page** (`article_view.dfy`). Lookup by id, the trending sidebar,
  the meta values, and segmentation of the long content into paragraphs and
  headed sections.
- **Shared pieces.** `text.dfy` holds the JavaScript string operations the
  pages use (`includes`, `indexOf`, `split`, `join`, `trim`, `padStart`,
  number `toString`, `toLowerCase`) on strings as sequences of characters.
  A Dafny character is a Unicode scalar value, while a JavaScript string
  counts UTF-16 code units, so lengths agree only on text within the Basic
  Multilingual Plane (see "Left out"). `sequences.dfy` holds `slice`, `filter` by value, the order of a
  `Set` and the subsequence relation. `entities.dfy` holds the records and
  their `Partial<…>` updates: a key absent from a spread is `Keep`, a present
  one is `Put(v)`.

Handlers that receive a `Date.now()` or `Math.random()` id or a
`toLocaleDateString` date take it as a parameter (`stamp`, `id`, `date`).
Where the source relies on that id being new, a `requires` says so. The
`setInterval` callback is an explicit `Tick` method. Each `setTimeout`
completion is a separate `CompleteSubmit` method that consumes the record its
submit scheduled.

One behaviour may surprise a reader. Stopping a broadcast does not reset the
timer. Only going live resets it, and so does the tick at the limit
(pages/Studio.tsx:626-636). The model follows the code: `Studio.LiveToggled`
keeps the timer when stopping.

## Model

| member | source | states |
|---|---|---|
| Text.IndexOf | pages/ArticleView.tsx:88 | the index found is an occurrence with no earlier one; none exactly when the substring never occurs |
| Text.Contains | context/DataContext.tsx:70 | true exactly when the substring occurs at some index |
| Text.Split | pages/ArticleView.tsx:87 | there is always at least one piece, and exactly one exactly when the separator does not occur |
| Text.JoinSplit | pages/ArticleView.tsx:87 | joining the pieces of a split with the same separator gives the original string back |
| Text.SplitPiecesFree | pages/ArticleView.tsx:87 | no piece of a split contains the separator |
| Text.SplitJoin | pages/ArticleView.tsx:27 | splitting a non-empty join gives the pieces back when no piece contains the separator's first character |
| Text.TrimStart | pages/Studio.tsx:645 | the result is a suffix of the input; everything dropped is white space; it does not start with white space |
| Text.TrimEnd | pages/Studio.tsx:645 | the result is a prefix of the input; everything dropped is white space; it does not end with white space |
| Text.TrimSlice | pages/Studio.tsx:645 | the trimmed string is a slice of the input with only white space cut off on either side |
| Text.TrimEmpty | pages/Studio.tsx:645 | the trimmed string is empty exactly when the input is all white space |
| Text.TrimSpec | pages/Studio.tsx:645 | `trim` returns a slice with white space only on either side, none at its own ends, and is empty exactly when the input is all white space |
| Text.TrimIdempotent | pages/AdminDashboard.tsx:759-765 | trimming twice is trimming once |
| Text.NatToDecimal | pages/Studio.tsx:77-81 | only digits, no leading zero, and a single digit exactly below 10 |
| Text.DecimalRoundTrip | pages/Studio.tsx:77-81 | reading the decimal digits back gives the number |
| Text.PadStart | pages/Studio.tsx:80 | the result has length max(width, \|s\|), ends with `s`, and is filled before it |
| Text.ToLower | pages/AdminDashboard.tsx:753 | same length; no upper-case letter is left; each upper-case ASCII letter becomes the lower-case letter at the same alphabet position; every other character is kept |
| Text.LowerChar | pages/AdminDashboard.tsx:753 | an upper-case ASCII letter maps to the lower-case letter at the same alphabet position; every other character is kept |
| Text.UpperChar | pages/Studio.tsx:315 | a lower-case ASCII letter maps to the upper-case letter at the same alphabet position; every other character is kept |
| Text.ToLowerKeepsLower | pages/AdminDashboard.tsx:753 | text without upper-case letters is unchanged by lowering |
| Text.ToLowerIdempotent | pages/AdminDashboard.tsx:753 | lowering twice is lowering once |
| Sequences.Take | pages/ArticleView.tsx:10 | `slice(0, n)`: a prefix whose length is the smaller of `n` and the length |
| Sequences.Remove | pages/AdminDashboard.tsx:959 | `filter(c => c !== v)`: exactly the members other than `v`, in order; unchanged when `v` is absent |
| Sequences.RemoveConcat | pages/AdminDashboard.tsx:959 | removal distributes over concatenation, so every other element keeps its multiplicity and position |
| Sequences.RemoveAppended | pages/AdminDashboard.tsx:959 | removing a value that was just appended to a list without it restores the list |
| Sequences.RemoveDistinct | pages/AdminDashboard.tsx:959 | removal keeps a duplicate-free list duplicate-free |
| Sequences.Dedupe | pages/AdminDashboard.tsx:755 | `Array.from(new Set(xs))`: duplicate-free, same members, never longer |
| Sequences.DedupePrefix | pages/AdminDashboard.tsx:755 | deduplicating a prefix gives a prefix of the deduplicated list, which is first-occurrence order |
| Sequences.FirstIndex | pages/AdminDashboard.tsx:755 | the position of the first occurrence: it holds the element and no earlier position does |
| Sequences.DedupePosition | pages/AdminDashboard.tsx:755 | an element sits in the deduplicated list at the number of distinct elements before its first occurrence |
| Sequences.TakeDedupePosition | pages/AdminDashboard.tsx:755-756 | among the first n distinct elements, an element is kept at that position exactly when the position is below n |
| Entities.MergeNoChange | context/DataContext.tsx:58 | spreading the empty update changes nothing |
| Entities.MergeIdempotent | context/DataContext.tsx:58 | spreading the same update twice is spreading it once |
| Entities.MergeStatus | context/DataContext.tsx:58 | the `{ status }` update changes the status and nothing else |
| DataContext.InitialSettingsFacts | context/DataContext.tsx:18-51 | the store starts with 1800 seconds of broadcast and three plans, each at 50% off |
| DataContext.UpdatedById | context/DataContext.tsx:57-59 | same length; items with the id are merged with the update, all others are unchanged |
| DataContext.UpdateAbsentId | context/DataContext.tsx:57-59 | an update aimed at an id nobody has leaves the list as it was |
| DataContext.WithoutIdSpec | context/DataContext.tsx:61-63 | no item with the id remains; every other item remains, in order; nothing changes when the id is absent |
| DataContext.WithoutIdConcat | context/DataContext.tsx:61-63 | deletion distributes over concatenation |
| DataContext.AddThenDelete | context/DataContext.tsx:53-63 | prepending an item with a fresh id and deleting that id restores the list |
| DataContext.MergeSettings | context/DataContext.tsx:65-67 | each supplied key overrides and each absent key is kept |
| DataContext.SignedInUser | context/DataContext.tsx:69-90 | the e-mail is kept; admin exactly when it contains "admin"; the admin is "admin-1" without a company; a founder is "Elena Rostova" of "Nebula AI" |
| DataContext.RegisteredUser | context/DataContext.tsx:92-101 | always a founder, with exactly the given name, e-mail and company |
| DataContext.Store.constructor | context/DataContext.tsx:44-51 | no user, the seed interviews, the initial settings |
| DataContext.Store.AddInterview | context/DataContext.tsx:53-55 | the item is first and the old list follows; user and settings unchanged |
| DataContext.Store.UpdateInterview | context/DataContext.tsx:57-59 | the list becomes the merge-by-id of the old one; user and settings unchanged |
| DataContext.Store.DeleteInterview | context/DataContext.tsx:61-63 | the list loses exactly the items with the id; user and settings unchanged |
| DataContext.Store.UpdateAppSettings | context/DataContext.tsx:65-67 | settings become the merge of the old settings and the update; nothing else changes |
| DataContext.Store.Login | context/DataContext.tsx:69-90 | always returns true and signs in the user chosen by the e-mail |
| DataContext.Store.Register | context/DataContext.tsx:92-101 | signs in the registered founder; the list and settings are unchanged |
| DataContext.Store.Logout | context/DataContext.tsx:103-105 | no user afterwards; the list and settings are unchanged |
| Studio.FormatTimeRoundTrip | pages/Studio.tsx:77-81 | "MM:SS" shape with a two-digit seconds part below 60; five characters below 100 minutes; minutes × 60 + seconds read back is the input |
| Studio.GridClass | pages/Studio.tsx:83-88 | one column exactly for ≤ 1, two exactly for 2..4, three exactly for ≥ 5 |
| Studio.StageToggled | pages/Studio.tsx:588-590 | `isOnStage` flips exactly on the participants with the id; every other field and participant is unchanged |
| Studio.MuteToggled | pages/Studio.tsx:816 | `muted` flips exactly on local participants; nothing else changes |
| Studio.CameraToggled | pages/Studio.tsx:817 | `videoOff` flips exactly on local participants; nothing else changes |
| Studio.TogglesAreInvolutions | pages/Studio.tsx:588-590 | applying the stage, mute or camera toggle twice restores the roster |
| Studio.OnStage | pages/Studio.tsx:650 | exactly the on-stage participants, in roster order |
| Studio.OnStageConcat | pages/Studio.tsx:650 | the on-stage filter distributes over concatenation, so every on-stage participant keeps its multiplicity and position |
| Studio.Deactivated | pages/Studio.tsx:646 | every banner kept, each inactive |
| Studio.WithNewBanner | pages/Studio.tsx:644-648 | blank text changes nothing; otherwise every old banner is deactivated and one active static banner with the text is appended |
| Studio.BannerClicked | pages/Studio.tsx:978 | the clicked banner toggles, every other becomes inactive, and no other field changes |
| Studio.CreateBannerActivatesOnlyNew | pages/Studio.tsx:644-648 | after a non-blank creation exactly the new banner is active and ids stay unique |
| Studio.ClickKeepsAtMostOneActive | pages/Studio.tsx:978 | after a click at most one banner is active |
| Studio.DestinationName | pages/Studio.tsx:315 | "Custom RTMP" for a custom target, else the capitalised platform name followed by " Channel" |
| Studio.NewDestination | pages/Studio.tsx:311-324 | a new destination is enabled and connected; url and stream key are set exactly for a custom target, to the entered values |
| Studio.DestinationToggled | pages/Studio.tsx:301-304 | `enabled` flips exactly on the matching id; nothing else changes |
| Studio.WithoutDestination | pages/Studio.tsx:306-309 | exactly the matching ids are dropped and the rest keep their order |
| Studio.WithoutDestinationConcat | pages/Studio.tsx:306-309 | removal by id distributes over concatenation, so every other destination keeps its multiplicity and position |
| Studio.AddThenRemoveDestination | pages/Studio.tsx:306-324 | adding a destination with a fresh id and removing it restores the list |
| Studio.EnabledDestinations | pages/Studio.tsx:653 | exactly the enabled destinations, in order |
| Studio.EnabledDestinationsConcat | pages/Studio.tsx:653 | the enabled filter distributes over concatenation, so every enabled destination keeps its multiplicity and position |
| Studio.WithSetting | pages/Studio.tsx:548-550 | the named setting takes the value and the others are kept |
| Studio.WithMessage | pages/Studio.tsx:638-642 | blank input changes nothing; otherwise one message from "You" marked "Live" is appended |
| Studio.Ticked | pages/Studio.tsx:606-616 | below the limit the counter advances by one and nothing else changes; at the limit both flags go off, the counter returns to 0 and the limit notice opens |
| Studio.LiveToggled | pages/Studio.tsx:626-636 | without an enabled destination only the settings open; going live resets the counter; stopping opens the "Broadcast Wrapped." notice and keeps the counter |
| Studio.RecordClicked | pages/Studio.tsx:696 | starting touches neither the counter nor the live flag; stopping opens the notice and leaves its reason as it was |
| Studio.ElapsedBelowLimit | pages/Studio.tsx:604-620 | n ticks that stay below the limit add n to the counter and change nothing else |
| Studio.ElapsedReachesLimit | pages/Studio.tsx:604-620 | from any active state, after the remaining seconds both flags are off, the counter is 0 and the limit notice is showing |
| Studio.TimerStaysBelowLimit | pages/Studio.tsx:604-636 | with a positive limit no tick, live toggle or record click takes the counter to the limit |
| Studio.FiveSecondScenario | pages/Studio.tsx:604-636 | record then go live under a 5-second limit: five ticks later both are stopped with the limit notice |
| Studio.FirstLiveSlot | pages/Studio.tsx:536 | `find`: the index of an approved live booking with none before it, or none when there is no such booking |
| Studio.HostName | pages/Studio.tsx:536-537 | the founder of the first approved live booking, or "You (Host)" when there is none |
| Studio.Session.constructor | pages/Studio.tsx:536-586 | the local host plus the mock guests, the two initial banners, the initial chat and settings, everything stopped |
| Studio.Session.ToggleStage | pages/Studio.tsx:588-590 | the roster becomes its stage toggle; all other state is unchanged |
| Studio.Session.ToggleMute | pages/Studio.tsx:816 | the roster becomes its mute toggle; all other state is unchanged |
| Studio.Session.ToggleCamera | pages/Studio.tsx:817 | the roster becomes its camera toggle; all other state is unchanged |
| Studio.Session.CreateBanner | pages/Studio.tsx:644-648 | the banners become the creation result and stay valid: unique ids, at most one active |
| Studio.Session.ClickBanner | pages/Studio.tsx:978 | the banners become the click result and stay valid |
| Studio.Session.UpdateSetting | pages/Studio.tsx:548-550 | the settings become the one-key update; all other state is unchanged |
| Studio.Session.AddDestination | pages/Studio.tsx:311-324 | the new destination is appended; all other state is unchanged |
| Studio.Session.ToggleDestination | pages/Studio.tsx:301-304 | the destinations become their toggle; all other state is unchanged |
| Studio.Session.RemoveDestination | pages/Studio.tsx:306-309 | the destinations lose the id; all other state is unchanged |
| Studio.Session.SendMessage | pages/Studio.tsx:638-642 | the chat becomes the send result; all other state is unchanged |
| Studio.Session.ToggleLive | pages/Studio.tsx:626-636 | the broadcast state follows `LiveToggled`; the alert is raised exactly when going live without an enabled destination |
| Studio.Session.ClickRecord | pages/Studio.tsx:696 | the broadcast state follows `RecordClicked` |
| Studio.Session.Tick | pages/Studio.tsx:604-620 | while live or recording, the broadcast state follows `Ticked` |
| Studio.Session.CloseDownloadModal | pages/Studio.tsx:660 | only the notice closes |
| Studio.Session.CloseSettings | pages/Studio.tsx:658 | only the settings close |
| AdminDashboard.ApprovalStatus | pages/AdminDashboard.tsx:1109-1112 | upcoming exactly for a live application, recorded for any other or absent type |
| AdminDashboard.StatusUpdateOnly | pages/AdminDashboard.tsx:1109-1116 | a moderation update sets the status of the matching items and changes nothing else |
| AdminDashboard.ModerationIsFinal | pages/AdminDashboard.tsx:1280 | after approving or rejecting an item (lines 1109-1116) its approve/reject buttons are gone for every user, since they show only to an admin on a pending item |
| AdminDashboard.Approve | pages/AdminDashboard.tsx:1109-1112 | the store's list becomes the status update by id; user and settings unchanged |
| AdminDashboard.Reject | pages/AdminDashboard.tsx:1114-1116 | the matching items become rejected; user and settings unchanged |
| AdminDashboard.ByFounder | pages/AdminDashboard.tsx:1118-1120 | exactly the items of the named founder, in order |
| AdminDashboard.ByFounderConcat | pages/AdminDashboard.tsx:1120 | the founder filter distributes over concatenation, so each own item keeps its multiplicity and position |
| AdminDashboard.DisplayInterviews | pages/AdminDashboard.tsx:1118-1120 | an admin sees the whole list; anyone else sees the founder filter of the list for their name, which keeps exactly their own items in order |
| AdminDashboard.PendingCount | pages/AdminDashboard.tsx:1122 | at most the length; 0 exactly when none is pending; the length exactly when all are |
| AdminDashboard.PendingCountConcat | pages/AdminDashboard.tsx:1122 | the count of a concatenation is the sum of the counts, and one item counts 1 exactly when it is pending, so the count is the number of pending items |
| AdminDashboard.ModerationLowersPending | pages/AdminDashboard.tsx:1109-1122 | with unique ids, moderating a pending item lowers the pending count by exactly one |
| AdminDashboard.ViewDashboard | pages/AdminDashboard.tsx:1102-1122 | without a user the page redirects; otherwise it shows the role, the role-filtered rows and the count over all items |
| AdminDashboard.StatusLabel | pages/AdminDashboard.tsx:1273-1276 | pending shows "Pending", upcoming "Active", recorded "Published", rejected "Rejected"; live shows no label |
| AdminDashboard.UpdatedPlan | pages/AdminDashboard.tsx:55-57 | same length; the matching plans merge the update, the rest are unchanged |
| AdminDashboard.UpdatedPlanIdempotent | pages/AdminDashboard.tsx:55-57 | an update that keeps the id, applied twice, is applied once |
| AdminDashboard.Toggled | pages/AdminDashboard.tsx:959 | a selected value is removed and nothing else changes; an unselected one is appended |
| AdminDashboard.ToggleTwice | pages/AdminDashboard.tsx:959 | toggling an unselected value twice restores the selection |
| AdminDashboard.ToggleChip | pages/AdminDashboard.tsx:985 | only the selection changes, to its toggle |
| AdminDashboard.ToggleChipKeepsValid | pages/AdminDashboard.tsx:959 | toggling keeps the chips duplicate-free with the selection among the available ones |
| AdminDashboard.ToggleChipKeepsOffered | pages/AdminDashboard.tsx:959 | clicking an offered chip keeps the selection among the offered chips, duplicates or not |
| AdminDashboard.AddCustomAsWritten | pages/AdminDashboard.tsx:759-765 | as written: nothing happens when the trimmed input is blank or the untrimmed input is available; otherwise the trimmed value is added and selected and the input clears |
| AdminDashboard.AddCustomAsWrittenDuplicates | pages/AdminDashboard.tsx:759-765 | on valid chips ["News"] with input " News" the result holds "News" twice |
| AdminDashboard.AddCustomAsWrittenKeepsOffered | pages/AdminDashboard.tsx:759-773 | the entry as written keeps the selection among the offered chips |
| AdminDashboard.AddCustom | pages/AdminDashboard.tsx:767-773 | corrected: the duplicate test uses the trimmed value |
| AdminDashboard.AddCustomKeepsValid | pages/AdminDashboard.tsx:759-773 | the corrected entry keeps the chips valid and makes a non-blank value available |
| AdminDashboard.WordPrefix | pages/AdminDashboard.tsx:754 | at most the length, and positive when the text starts with a word character |
| AdminDashboard.WordPrefixSpec | pages/AdminDashboard.tsx:754 | the leading run is all word characters and stops at a non-word character or the end |
| AdminDashboard.WordPrefixIs | pages/AdminDashboard.tsx:754 | a word-character prefix followed by a non-word character or the end is the leading run |
| AdminDashboard.WordRunsSpec | pages/AdminDashboard.tsx:754 | each run is non-empty, made of word characters and occurs in the text |
| AdminDashboard.WordRunsConcat | pages/AdminDashboard.tsx:754 | cut at a word boundary, the runs of the text are the runs of the first part followed by those of the second |
| AdminDashboard.WordRunsOfRun | pages/AdminDashboard.tsx:754 | a stretch of word characters is one run |
| AdminDashboard.WordRunsAround | pages/AdminDashboard.tsx:754 | every whole run of the text is listed, after the runs before it and before the runs after it |
| AdminDashboard.LongRuns | pages/AdminDashboard.tsx:754 | exactly the runs of at least 5 characters, in order |
| AdminDashboard.LongRunsConcat | pages/AdminDashboard.tsx:754 | the length filter distributes over concatenation, so each long run keeps its multiplicity and position |
| AdminDashboard.GeneratedKeywordsSpec | pages/AdminDashboard.tsx:752-757 | at most 10 distinct lower-case word runs of ≥ 5 characters from the text; all of them when there are at most 10 |
| AdminDashboard.GeneratedKeywordsOrder | pages/AdminDashboard.tsx:755-756 | first-occurrence order: a long run with p distinct long runs before its first occurrence is keyword p when p < 10, and absent otherwise |
| AdminDashboard.NonEmptySpec | pages/AdminDashboard.tsx:784 | `filter(Boolean)`: exactly the non-empty strings, in order |
| AdminDashboard.NonEmptyConcat | pages/AdminDashboard.tsx:784 | the filter distributes over concatenation |
| AdminDashboard.NonEmptyKeepsNonEmpty | pages/AdminDashboard.tsx:784 | a list without empty strings passes the filter unchanged |
| AdminDashboard.TrimAll | pages/AdminDashboard.tsx:784 | each entry trimmed, positions kept |
| AdminDashboard.AllKeywordsSpec | pages/AdminDashboard.tsx:784 | the generated keywords come first unchanged, then the non-blank trimmed manual entries; none is empty |
| AdminDashboard.Thumbnail | pages/AdminDashboard.tsx:798 | the first image's url, or "" when there is none |
| AdminDashboard.NewArticleSpec | pages/AdminDashboard.tsx:786-806 | the article's id, status, category, content with the image marker, a ≤160-character description prefix, tags, keywords and thumbnail |
| AdminDashboard.MockUpload | pages/AdminDashboard.tsx:19-31 | reports 20, 40, 60, 80, 100 in that order and resolves to the object url |
| AdminDashboard.WithImage | pages/AdminDashboard.tsx:743-748 | only the image with the id is updated |
| AdminDashboard.ArticleForm.constructor | pages/AdminDashboard.tsx:702-728 | the empty draft, no images, the initial categories and tags with nothing selected |
| AdminDashboard.ArticleForm.EditDraft | pages/AdminDashboard.tsx:716-728 | only the draft changes |
| AdminDashboard.ArticleForm.GenerateKeywords | pages/AdminDashboard.tsx:752-757 | only the generated keywords change, to the extraction of the current text |
| AdminDashboard.ArticleForm.ToggleCategory | pages/AdminDashboard.tsx:959 | the categories become their toggle; the selection stays among the offered chips |
| AdminDashboard.ArticleForm.ToggleTag | pages/AdminDashboard.tsx:985 | the tags become their toggle; the selection stays among the offered chips |
| AdminDashboard.ArticleForm.TypeCategory | pages/AdminDashboard.tsx:710 | only the category input changes |
| AdminDashboard.ArticleForm.TypeTag | pages/AdminDashboard.tsx:711 | only the tag input changes |
| AdminDashboard.ArticleForm.AddCategory | pages/AdminDashboard.tsx:759-765 | the categories become the custom entry as written; the selection stays among the offered chips |
| AdminDashboard.ArticleForm.AddTag | pages/AdminDashboard.tsx:767-773 | the tags become the custom entry as written; the selection stays among the offered chips |
| AdminDashboard.ArticleForm.AddImages | pages/AdminDashboard.tsx:730-750 | the old images are kept and each new file is appended as completed at 100% with its url |
| AdminDashboard.ArticleForm.UploadOne | pages/AdminDashboard.tsx:743-748 | only that image changes, to completed at 100% with its url |
| AdminDashboard.ArticleForm.ReportProgress | pages/AdminDashboard.tsx:745-747 | only that image's progress changes, to the last report |
| AdminDashboard.ArticleForm.Submit | pages/AdminDashboard.tsx:775-806 | refused with the alert exactly below 3 images; otherwise submitting, with the built article scheduled |
| AdminDashboard.ArticleForm.CompleteSubmit | pages/AdminDashboard.tsx:808-813 | the scheduled article is prepended to the store, submitting ends and the images clear |
| AdminDashboard.PublishEnabled | pages/AdminDashboard.tsx:1080 | enabled exactly when not submitting and at least 3 images are present |
| Apply.WithField | pages/Apply.tsx:103-105 | the named field takes the value and every other field is kept |
| Apply.InitialForm | pages/Apply.tsx:35-46 | name, company and e-mail come from the user when there is one; everything else is empty |
| Apply.Prefill | pages/Apply.tsx:49-58 | filled name, e-mail and company are kept, empty ones come from the user, the rest is unchanged |
| Apply.PrefillIdempotent | pages/Apply.tsx:49-58 | prefilling twice is prefilling once |
| Apply.TitleSpec | pages/Apply.tsx:81 | at most 53 characters; the description itself up to 50; else its first 50 followed by "..." |
| Apply.NewApplicationSpec | pages/Apply.tsx:73-95 | pending, unviewed, off the home page, of the chosen type, with the applicant's details; a scheduled date exactly for a live slot |
| Apply.DefaultPlanId | pages/Apply.tsx:19 | the first plan's id, or "" when there are no plans |
| Apply.ApplyForm.constructor | pages/Apply.tsx:15-46 | idle, upload type, default plan, the initial form |
| Apply.ApplyForm.OnRoute | pages/Apply.tsx:22-33 | without a user it redirects to sign in; with one, `type=live` selects the live slot |
| Apply.ApplyForm.OnUser | pages/Apply.tsx:49-58 | with a user the form becomes its prefill; nothing else changes |
| Apply.ApplyForm.ChooseType | pages/Apply.tsx:18 | only the type changes |
| Apply.ApplyForm.ChoosePlan | pages/Apply.tsx:19 | only the plan changes |
| Apply.ApplyForm.HandleChange | pages/Apply.tsx:103-105 | only the named field changes |
| Apply.ApplyForm.HandleSubmit | pages/Apply.tsx:69-95 | from idle to submitting, with the built record scheduled |
| Apply.ApplyForm.CompleteSubmit | pages/Apply.tsx:97-100 | the record is prepended to the store and the status becomes success |
| Apply.SubmitEnabled | pages/Apply.tsx:411 | the button is enabled exactly when not submitting |
| Layout.LinkClass | components/Layout.tsx:17 | the active style exactly when the pathname equals the link's path |
| Layout.GoLiveTarget | components/Layout.tsx:19-31 | sign in exactly without a user; the studio exactly for a user when an approved live slot exists; the dashboard otherwise |
| Layout.ApprovingLiveOpensStudio | components/Layout.tsx:24-26 | once a live application is approved, "Go Live" sends every signed-in user to the studio |
| Layout.RejectingKeepsDashboard | components/Layout.tsx:24-28 | rejecting never creates an approved live slot, so users stay on the dashboard |
| Layout.OnApplyClick | components/Layout.tsx:33-38 | the link is cancelled, with a redirect to sign in, exactly without a user |
| ArticleView.FindById | pages/ArticleView.tsx:9 | none exactly when no item has the id; otherwise the first item with it |
| ArticleView.Trending | pages/ArticleView.tsx:10 | a prefix of the items without the current id, of length five or all of them when fewer |
| ArticleView.RenderBlockAsWritten | pages/ArticleView.tsx:88-95 | as written: a paragraph exactly without a colon; else a colon-free heading and colon-free text whose joined form is a prefix of the paragraph ending at a colon or the end, the whole paragraph when it has one colon |
| ArticleView.SectionPieces | pages/ArticleView.tsx:89 | the first two pieces of `split(':')` are colon-free and, joined by a colon, form a prefix of the paragraph that ends at a colon or the end |
| ArticleView.RenderBlockAsWrittenDropsText | pages/ArticleView.tsx:88-95 | "Time: 9:30" renders as heading "Time" over " 9", losing "30" |
| ArticleView.RenderBlock | pages/ArticleView.tsx:88-95 | corrected: a paragraph exactly without a colon; heading and text put back together give the block |
| ArticleView.RenderContent | pages/ArticleView.tsx:85-96 | one block per blank-line segment, in order, each the as-written block of its segment: a prefix of the segment cut at its second colon, the whole segment when it has at most one colon, a paragraph exactly when it has no colon |
| ArticleView.ContentRoundTripAsWritten | pages/ArticleView.tsx:85-102 | when no paragraph holds two colons, the rendered blocks joined by blank lines are the long content |
| ArticleView.RenderContentCorrected | pages/ArticleView.tsx:85-96 | corrected: one block per blank-line segment, each showing its whole segment |
| ArticleView.ContentRoundTrip | pages/ArticleView.tsx:85-102 | corrected: the blocks joined by blank lines are the long content |
| ArticleView.OrDefault | pages/ArticleView.tsx:26 | `value \|\| default` on an optional string |
| ArticleView.ArticleBody | pages/ArticleView.tsx:85-102 | blocks exactly when the long content is non-empty, and then the page rendering of it: one per segment, losing nothing when no paragraph holds two colons; otherwise the description |
| ArticleView.KeywordsMeta | pages/ArticleView.tsx:27 | "" without tags; a single tag as itself |
| ArticleView.KeywordsMetaRoundTrip | pages/ArticleView.tsx:27 | splitting the keywords value at ", " gives the tags back when no tag holds a comma |
| ArticleView.ViewArticle | pages/ArticleView.tsx:9-37 | not found exactly without a match; otherwise the first matching article, with its title, meta values, byline, read time, body and sidebar |

## Left out

- Camera and microphone capture, clipboard writes, `URL.createObjectURL`,
  `document.title` and meta-tag edits, `alert` display, scrolling. These are
  host I/O. Their inputs and outputs are parameters or returned values.
- The scheduling done by `setInterval`/`setTimeout`. Ticks and delayed
  completions are explicit methods, so their interleaving with other handlers
  is not modelled.
- AdminDashboard.ArticleForm.AddImages: the uploads of one selection complete
  one after another. The model does not capture other handlers acting between
  the awaited progress reports, or the intermediate "uploading" status.
- Apply.Title: the 50-character cut counts characters, while `substring`
  counts UTF-16 code units. The two differ on text outside the Basic
  Multilingual Plane, such as emoji.
- AdminDashboard.NewArticle: the 160-character description cut counts
  characters rather than UTF-16 code units, with the same difference outside
  the Basic Multilingual Plane.
- Text.ToLower: lowers ASCII letters only. JavaScript's full Unicode case
  mapping is not modelled.
- Offer prices `Math.floor(basePrice * (1 - discountPercentage/100))` and the
  minutes/seconds conversion of the broadcast limit in the admin settings.
  These are floating-point arithmetic.
- `Date.now()`, `Math.random()`, `toLocaleDateString` and
  `encodeURIComponent`. Their results are parameters.
- The screen-first sort of on-stage participants. Its comparator is not a
  consistent order, so the result is engine-defined.
- Query strings: `URLSearchParams` parsing is not modelled, and the `type`
  value arrives as an input.
- Browser `required` form validation before submit.
- The video-upload modal of the dashboard, and the fields `youtubeUrl`,
  `embedUrl` and `primaryPlatform`, which no modelled operation reads.
- The participant's media stream handle.
- The remaining pages (landing, video lists, article lists, video player,
  sign-in form), routing, and all markup and styling.

## Findings

| source | as written | input that shows it | evidently intended | confidence | as-written member | corrected member |
|---|---|---|---|---|---|---|
| pages/AdminDashboard.tsx:759-773 | the duplicate test compares the untrimmed input with the available chips, then adds the trimmed value | chips ["News"], input " News": "News" is added a second time and selected | compare the trimmed value, so no chip appears twice | high (not executed) | AdminDashboard.AddCustomAsWritten | AdminDashboard.AddCustom |
| pages/ArticleView.tsx:88-95 | the block is split at every colon and only the first two pieces are kept, so the body is the text between the first and second colon | the paragraph "Time: 9:30" shows heading "Time" over " 9" and drops "30" | the heading is the text before the first colon and the body is everything after it | medium (not executed) | ArticleView.RenderBlockAsWritten | ArticleView.RenderBlock |

The article form and the article page follow the code as written:
`ArticleForm.AddCategory` and `ArticleForm.AddTag` apply
`AddCustomAsWritten`, and `RenderContent`, `ArticleBody` and `ViewArticle`
render with `RenderBlockAsWritten`. The corrected members `AddCustom`,
`RenderBlock` and `RenderContentCorrected` state the evidently intended
behaviour, with `AddCustomKeepsValid` and `ContentRoundTrip` proved about
them.
