# Career dashboard — a Dafny model of its state rules

The system is a job-seeker's dashboard. Its React front end covers several screens:

- an animated bar chart of tracked companies per job category, on a flip card whose back holds a todo list and a month calendar;
- a horizontal job-interest chart;
- a kanban board of applications;
- a résumé list with a primary résumé, copying and sorting;
- a community feed with likes, posts and following lists;
- a skills and career page;
- a profile-completion meter;
- a cover-letter editor;
- a desired-conditions dialog;
- a job-posting calendar.

Its Spring back end keeps users, résumés, applications and posts in repositories.

This project models the rules behind those screens and services, one Dafny module per source file:

- **Pure logic.** Counting, ranking, bar geometry, calendar grids, list updates, search and completion are functions with named results.
- **Lemmas.** Lemmas state what those functions promise:
  - ranking, stability and permutation;
  - bounds and centring;
  - inverse and idempotent pairs (like twice, toggle twice, remove after add);
  - invariants such as "at most one primary résumé per user".
- **State.** Each component or service whose state changes becomes a class. Its fields are the state, and its methods are the handlers. Each method's `ensures` ties the new state to the functions above and keeps the class invariant `Valid()`.
- **Loops.** The source's loops are methods with loop invariants:
  - the counting record;
  - the 42-cell calendar grid;
  - the grouping of applications by status;
  - the split of a user's applications by date in the application service.

Shared helper modules:

- `Wrappers`: `Option` and `Result`.
- `Text`: JavaScript `trim`, `includes` and an ASCII-only `toLowerCase`.
- `Lists`: `filter`, remove-at, order-preserving subsequences and a stable descending sort.
- `CivilDate`: the Gregorian calendar as day numbers, weekdays and month arithmetic.
- `Animation`: the progress clock and frame request shared by the two canvas charts.

Numbers:

- Progress and geometry are Dafny `real`s, which are exact rationals.
- Instants in the job calendar are integers counting milliseconds.
- Repositories are maps from ids to records.

Things the program takes from outside become parameters:

- `Date.now()` becomes a `stamp` or fresh-id parameter.
- `Math.random()` becomes a palette index `pick`.
- Server responses become `Result` values passed in.
- The browser's frame scheduler becomes explicit `Frame`/`Fire` calls.

## Model

| member | source | states |
|---|---|---|
| Animation.Advance | components/bubble-chart.tsx:200 | One tick keeps progress in (0, 1]. Progress strictly rises unless it is already 1. While below 1 it has risen by exactly 0.03. |
| Animation.ProgressAfterIs | components/bubble-chart.tsx:190-200 | After k ticks from a reset, the progress is min(0.03·k, 1). |
| Animation.RunLength | components/bubble-chart.tsx:196-262 | Progress strictly increases over the first 34 ticks. It equals 1 exactly when at least 34 ticks have run, so a run draws 34 frames. |
| Animation.TextOpacity | components/bubble-chart.tsx:243 | Label opacity lies in [0, 1]. It is 2·progress below one half and reaches 1 exactly from progress one half on. |
| Animation.TextOpacityMonotone | components/interest-chart.tsx:132 | Labels never fade out as the progress grows. |
| Animation.FrameLoop.constructor | components/bubble-chart.tsx:54-55 | The progress starts at 0, with no frame handle and nothing queued. |
| Animation.FrameLoop.Cancel | components/bubble-chart.tsx:269-274 | Cancelling empties the queue and nulls the handle; the progress is untouched. Cancelling twice is the same as once. |
| Animation.FrameLoop.Restart | components/bubble-chart.tsx:186-193 | The effect first cancels any pending frame, then resets the progress to 0. |
| Animation.FrameLoop.Fire | components/bubble-chart.tsx:258-259 | Running the queued frame removes it from the queue. A queued frame exists only while progress is below 1. |
| Animation.FrameLoop.Tick | components/bubble-chart.tsx:198-262 | The progress advances one step. A new frame is requested and recorded in the handle exactly when the progress is still below 1; otherwise the handle is nulled. |
| BubbleChart.CategoryCount | components/bubble-chart.tsx:171-175 | The number of companies of one category, never more than the number of companies. |
| BubbleChart.CategoryCountAppend | components/bubble-chart.tsx:171-175 | Counting distributes over concatenating two company lists. |
| BubbleChart.CategoryCountAbsent | components/bubble-chart.tsx:171-175 | A category that no company has counts 0. |
| BubbleChart.CountJobs | components/bubble-chart.tsx:168-175 | The counting record has exactly the eight labels as keys. Each value is the number of companies of that category, so a company of any other category is ignored. |
| BubbleChart.JobCounts | components/bubble-chart.tsx:166-184 | The counts the effect feeds to the bar mapping are `Counts` of the companies: one per label, in label order, each that category's number of companies. |
| BubbleChart.Counts | components/bubble-chart.tsx:168-182 | One count per label, in label order, each the number of companies of that label. |
| BubbleChart.Unsorted | components/bubble-chart.tsx:177-182 | Before sorting, bar i is label i with its own count and hue index i. |
| BubbleChart.BarDataRanked | components/bubble-chart.tsx:177-184 | `barData` has exactly 5 bars, in non-increasing count order. Each is a pre-sort bar, with its own category's count and hue index. Equal counts keep category order, among the five and across the cut. No category cut by `slice(0, 5)` counts more than the fifth bar kept. |
| BubbleChart.BarDataKeepsLargest | components/bubble-chart.tsx:177-184 | The top-five cut: a category left out of `barData` counts no more than the fifth bar. |
| BubbleChart.BarDataCutTies | components/bubble-chart.tsx:177-184 | A category cut by `slice(0, 5)` whose count equals a kept bar's comes after that bar in category order, because the stable sort keeps ties in input order. |
| BubbleChart.TiesKeepOrder | components/bubble-chart.tsx:183 | A stable sort of the category-ordered bars keeps equal counts in category order. |
| BubbleChart.TopBarIsLargest | components/bubble-chart.tsx:177-184 | When one category alone has companies, its bar comes first. |
| BubbleChart.Fade | components/bubble-chart.tsx:222-224 | The gradient's lower stop has the same hue as the bar's fill, at 0.3 opacity. |
| BubbleChart.FadeAsWrittenMismatch | components/bubble-chart.tsx:224 | With one "AI/ML" company, that category ranks first. The written lower stop gets hue 0 while the bar's fill has hue 280. |
| BubbleChart.MaxCount | components/bubble-chart.tsx:207 | The scale is at least 1 and at least every count. It is either 1 or one of the counts. |
| BubbleChart.BarWidth | components/bubble-chart.tsx:208 | The bar width lies in [0, 70], and n bars of 1.5 widths each fit the canvas width. |
| BubbleChart.FullHeightBounded | components/bubble-chart.tsx:216 | A fully grown bar is between 0 and 60% of the canvas height. |
| BubbleChart.FullHeightMonotone | components/bubble-chart.tsx:216 | Full heights follow the counts, and the largest count reaches exactly 60% of the height. |
| BubbleChart.ShapeBounded | components/bubble-chart.tsx:214-249 | Each bar stands on the line 50 above the bottom. Its height is the full height times the progress, at most 60% of the canvas. The upper stop has the category's hue. The lower stop has hue rank·40 at 0.3 opacity, as drawn. The two stops agree exactly when the rank equals the category's position. Both labels are centred on the bar and fade with `TextOpacity`. |
| BubbleChart.LayoutBounded | components/bubble-chart.tsx:213-250 | Every bar of a frame keeps the height bounds of `ShapeBounded`. Bar i's upper stop has its category's hue and its lower stop hue i·40. The two agree exactly when bar i is category i. |
| BubbleChart.ShapesProportional | components/bubble-chart.tsx:216-218 | At any progress, a larger count never draws a shorter bar. At full progress the largest count is 60% of the height. |
| BubbleChart.LayoutGrows | components/bubble-chart.tsx:218 | A later progress never draws a bar shorter. |
| BubbleChart.RowCentred | components/bubble-chart.tsx:211 | `startX` is non-negative and leaves equal margins left and right of the row of bars. |
| BubbleChart.ShapesCentred | components/bubble-chart.tsx:211-215 | Bars go left to right, one bar width plus 30% apart. The last bar ends as far from the right edge as the first starts from the left. |
| BubbleChart.CalendarGrid | components/bubble-chart.tsx:319-365 | The three filling loops produce exactly 42 cells, and cell i is `GridCell(year, month, i)`. |
| BubbleChart.GridCellsValid | components/bubble-chart.tsx:319-365 | Every cell is a real date showing its own day number. It is flagged as current exactly when it lies in the shown month. |
| BubbleChart.GridStartsOnSunday | components/bubble-chart.tsx:325-338 | The first cell is the Sunday on or before the 1st, `firstDay` days before it. |
| BubbleChart.GridStep | components/bubble-chart.tsx:319-365 | Each cell is the day after the previous cell, across both month boundaries. |
| BubbleChart.GridConsecutive | components/bubble-chart.tsx:319-365 | The 42 cells are consecutive days. Day d of the month sits at position firstDay + d − 1, flagged current. |
| BubbleChart.View.constructor | components/bubble-chart.tsx:47-89 | The card starts flipped to the chart, with no canvas size, no bars and nothing painted, on today's month. The four initial todos have their texts, and only the second is completed. All inputs are empty. |
| BubbleChart.View.Resize | components/bubble-chart.tsx:119-141 | The canvas takes the element's size; the size captured by the running effect, and everything else, stays. |
| BubbleChart.View.Animate | components/bubble-chart.tsx:196-263 | One tick advances the clock and draws `Layout` of the captured bars at the new progress and at the canvas size the effect run captured, with the lower stops painted by rank as written. It requests the next frame exactly while unfinished. |
| BubbleChart.View.RunEffect | components/bubble-chart.tsx:159-275 | With no size, or when not flipped, nothing changes. Otherwise the bars become `BarData` of the current companies, the current size is captured for the run's frames, the clock restarts, and the first frame, with its rank-hued lower stops, is drawn at progress 0.03. |
| BubbleChart.View.Frame | components/bubble-chart.tsx:258-262 | A queued frame advances the clock and redraws `Layout` of the captured bars at the captured size, so a frame that runs after a resize and before the next effect run keeps the old size. |
| BubbleChart.View.Cleanup | components/bubble-chart.tsx:269-274 | The effect's cleanup cancels the pending frame and leaves the progress alone. |
| BubbleChart.View.ToggleFlip | components/bubble-chart.tsx:278-286 | The pending frame is cancelled, then the side shown is swapped. |
| BubbleChart.View.PrevMonthClick | components/bubble-chart.tsx:289-296 | The month goes back by one, wrapping from January to December of the previous year. The month stays in 0..11. |
| BubbleChart.View.NextMonthClick | components/bubble-chart.tsx:299-306 | The month goes forward by one, wrapping from December to January of the next year. The month stays in 0..11. |
| BubbleChart.View.AddTodo | components/bubble-chart.tsx:92-97 | A blank input changes nothing. Otherwise a new, open todo with the trimmed text is appended and the input cleared. |
| BubbleChart.View.ToggleTodo | components/bubble-chart.tsx:99-103 | Only the todo at the index flips its completed flag; it is flipped in place on the shared object. |
| BubbleChart.View.RemoveTodo | components/bubble-chart.tsx:105-107 | Exactly the todo at the index is removed, and the others keep their order. |
| BubbleChart.View.AddCompany | components/bubble-chart.tsx:109-115 | With a non-blank name and a chosen category, the trimmed name and category go to the dashboard and both inputs clear. Otherwise nothing happens. |
| InterestChart.MaxValue | components/interest-chart.tsx:94 | The scale is at least 1 and at least every value. It is either 1 or one of the values. |
| InterestChart.BarHeight | components/interest-chart.tsx:95 | The bar height lies in [0, 30], and n rows of 1.5 heights each fit the canvas height. |
| InterestChart.Layout | components/interest-chart.tsx:101-145 | Every entry gets a row, with none dropped and no cap on their number. |
| InterestChart.FullWidthBounded | components/interest-chart.tsx:103 | A fully grown row is between 0 and 70% of the canvas width. |
| InterestChart.FullWidthMonotone | components/interest-chart.tsx:103 | Full widths follow the values, and the largest value reaches exactly 70% of the width. |
| InterestChart.RowBounded | components/interest-chart.tsx:102-144 | Each row starts at x = 80, and its width is the full width times the progress, at most 70%. The category label sits 10 left of the bar and the value label 10 right of its current end, both on the row's middle line. Both fade in with `TextOpacity`. |
| InterestChart.RowsProportional | components/interest-chart.tsx:103-105 | At any progress, a larger value never draws a shorter row. At full progress the largest value spans 70% of the width. |
| InterestChart.StackCentred | components/interest-chart.tsx:98 | `startY` is non-negative and leaves equal margins above and below the stack. |
| InterestChart.RowsCentred | components/interest-chart.tsx:97-102 | Rows go top to bottom, a bar height plus half of it apart. The last row ends as far from the bottom as the first starts from the top. |
| InterestChart.Legend | components/interest-chart.tsx:179 | The legend shows the first five entries, or all of them when fewer. |
| InterestChart.Chart.constructor | components/interest-chart.tsx:16-22 | The chart starts with no size, nothing drawn and the clock at rest. |
| InterestChart.Chart.Resize | components/interest-chart.tsx:26-50 | The canvas takes its parent's size; the size captured by the running effect, and everything else, stays. |
| InterestChart.Chart.Animate | components/interest-chart.tsx:83-153 | One tick advances the clock and draws `Layout` of the captured entries at the canvas size the effect run captured. It requests the next frame exactly while unfinished. |
| InterestChart.Chart.RunEffect | components/interest-chart.tsx:66-165 | With no size or no entries, nothing changes. Otherwise the entries and the current size are captured, the clock restarts after cancelling, and the first frame of all entries is drawn at progress 0.03. |
| InterestChart.Chart.Frame | components/interest-chart.tsx:147-152 | A queued frame advances the clock and redraws the captured entries at the captured size, so a frame that runs after a resize and before the next effect run keeps the old size. |
| InterestChart.Chart.Cleanup | components/interest-chart.tsx:159-164 | The cleanup cancels the pending frame and nulls the handle. |
| Dashboard.Categories | components/dashboard.tsx:22-31 | The category list is the `JOB_COLORS` keys, in key order. |
| Dashboard.ColorOf | components/dashboard.tsx:90 | A known category gets its `JOB_COLORS` colour, and any other category gets "#888888". |
| Dashboard.ColorIn | components/dashboard.tsx:90 | Looking a key up in a table without repeated keys gives its colour, or the fallback when the key is absent. |
| Dashboard.Entries | components/dashboard.tsx:71-91 | Before sorting there is one entry per colour key, in key order. Each holds the number of companies of that category and its colour. |
| Dashboard.JobInterestsCorrect | components/dashboard.tsx:69-95 | `updateJobInterests` gives exactly eight entries, one per colour key, with none dropped, sorted by value with the largest first. The result is a permutation of the unsorted entries, and entries of equal value keep their key order (the sort is stable). Each entry counts its category's companies and carries its colour. |
| Dashboard.EntryFacts | components/dashboard.tsx:86-91 | Any unsorted entry counts its own category and has its own colour. |
| Dashboard.InitialCounts | components/dashboard.tsx:53-58 | The four initial companies count 2, 1, 1 for the first three categories and 0 for the rest. |
| Dashboard.InitialBarData | components/dashboard.tsx:53-58 | With the initial companies, the bubble chart shows 프론트엔드 2, 백엔드 1, 풀스택 1, 데이터 분석 0, DevOps 0. |
| Dashboard.Occurrences | components/dashboard.tsx:134 | The number of cards with an id is what filtering that id out removes. |
| Dashboard.RemoveApplication | components/dashboard.tsx:120-125 | Every card with the id leaves that column. The rest of the column keeps its order, and the other columns are unchanged. Each kept element stays as often as the list held it. |
| Dashboard.Drop | components/dashboard.tsx:129-145 | A drop on the same column changes nothing. Otherwise the item's id leaves the source and the item is appended to the target; the other columns are unchanged. |
| Dashboard.DropKeepsTotal | components/dashboard.tsx:132-144 | A drop changes the card total by 1 minus the item's occurrences in the source. So a card found once in its source keeps the total. |
| Dashboard.AddApplication | components/dashboard.tsx:147-158 | A blank name changes nothing. Otherwise a card with the fresh id and the trimmed name is appended to "applied" only. |
| Dashboard.Dashboard.constructor | components/dashboard.tsx:53-118 | The initial companies, an empty interest series and the initial board. |
| Dashboard.Dashboard.UpdateJobInterests | components/dashboard.tsx:69-95 | The counting loop over `categoryCounts` stores `JobInterestsFor(companies)`; nothing else changes. |
| Dashboard.Dashboard.AddCompany | components/dashboard.tsx:98-102 | The trimmed name is appended with its category only when it is non-blank and a category is given. |
| Dashboard.Dashboard.RemoveCompany | components/dashboard.tsx:105-107 | Exactly the company at the index is removed. |
| Dashboard.Dashboard.RemoveApplicationClick | components/dashboard.tsx:120-125 | The board becomes `RemoveApplication` of the old board. |
| Dashboard.Dashboard.HandleDrop | components/dashboard.tsx:129-145 | The board becomes `Drop` of the old board. |
| Dashboard.Dashboard.HandleAddApplication | components/dashboard.tsx:147-161 | The board becomes `AddApplication` of the old board. The input is cleared only when a card was added. |
| ResumeList.CountPrimary | components/resume/resume-list.tsx:136 | The number of primary résumés is 0 exactly when none is primary. |
| ResumeList.SetPrimary | components/resume/resume-list.tsx:84-91 | A résumé is primary exactly when its id is the given one. Length, order and every other field are unchanged. |
| ResumeList.SetPrimaryExactlyOne | components/resume/resume-list.tsx:84-91 | With distinct ids, exactly one résumé is primary afterwards if the id exists, and none is if it does not. |
| ResumeList.TogglePublic | components/resume/resume-list.tsx:93-95 | `isPublic` flips on the résumés with the id only, and every other field and résumé is unchanged. |
| ResumeList.TogglePublicTwice | components/resume/resume-list.tsx:93-95 | Toggling the same id twice gives back the list. |
| ResumeList.FindById | components/resume/resume-list.tsx:98 | The result is absent exactly when no résumé has the id. Otherwise it is the first résumé with it. |
| ResumeList.CopyResume | components/resume/resume-list.tsx:97-120 | A missing id changes nothing. Otherwise one copy is appended, with the fresh id, the title plus " (복사본)", not primary and the new timestamp; all other fields are the original's. |
| ResumeList.DeleteResume | components/resume/resume-list.tsx:122-124 | Every résumé with the id goes, and the rest stay in order. Each kept element stays as often as the list held it. |
| ResumeList.ToggleOrder | components/resume/resume-list.tsx:130-132 | The order always changes. |
| ResumeList.ToggleOrderTwice | components/resume/resume-list.tsx:130-132 | Two toggles give back the order. |
| ResumeList.FirstPrimary | components/resume/resume-list.tsx:136 | `primaryResume` is absent exactly when no résumé is primary. Otherwise it is the first primary one. |
| ResumeList.Others | components/resume/resume-list.tsx:137 | Exactly the non-primary résumés, in list order. Each kept element stays as often as the list held it. |
| ResumeList.SortedOthersCorrect | components/resume/resume-list.tsx:134-167 | The sorted list is a permutation of the non-primary résumés. It is ordered by key, ascending or descending, and with an unknown key it keeps the list order. Résumés with equal keys keep their list order, so descending negates the comparator rather than reversing the list. |
| ResumeList.StableByKey | components/resume/resume-list.tsx:140-164 | For every key, the résumés with that key appear in the sorted list in their original order. |
| ResumeList.RankTies | components/resume/resume-list.tsx:140-163 | Two résumés compare equal exactly when their keys are equal. |
| ResumeList.RankStrict | components/resume/resume-list.tsx:140-163 | A strictly smaller key gets a strictly smaller rank. |
| ResumeList.ResumeListView.constructor | components/resume/resume-list.tsx:67-68 | The list shows the fetched résumés, sorted by `lastUpdated`, descending. |
| ResumeList.ResumeListView.HandleSetPrimary | components/resume/resume-list.tsx:84-91 | The list becomes `SetPrimary` of the old list, and the sort settings are kept. |
| ResumeList.ResumeListView.HandleTogglePublic | components/resume/resume-list.tsx:93-95 | The list becomes `TogglePublic` of the old list. |
| ResumeList.ResumeListView.HandleCopyResume | components/resume/resume-list.tsx:97-120 | The list becomes `CopyResume` of the old list. |
| ResumeList.ResumeListView.HandleDeleteResume | components/resume/resume-list.tsx:122-124 | The list becomes `DeleteResume` of the old list. |
| ResumeList.ResumeListView.HandleSortChange | components/resume/resume-list.tsx:126-128 | The sort key becomes the chosen one; nothing else changes. |
| ResumeList.ResumeListView.HandleSortOrderToggle | components/resume/resume-list.tsx:130-132 | The order flips between ascending and descending; nothing else changes. |
| ResumeService.AtMostOnePrimaryPerUser | backend/src/main/java/com/jobmanagement/service/ResumeService.java:53 | Under the invariant, the "primary résumé of a user" query has no answer or exactly one. |
| ResumeService.ClearPrimary | backend/src/main/java/com/jobmanagement/service/ResumeService.java:53-57 | After clearing, the user has no primary résumé. The user's primary résumés lose only the flag, and every other record is unchanged. |
| ResumeService.ClearKeepsOnePrimary | backend/src/main/java/com/jobmanagement/service/ResumeService.java:53-57 | Clearing a user's primary flags keeps at most one primary per user. |
| ResumeService.NewResume | backend/src/main/java/com/jobmanagement/service/ResumeService.java:41-49 | For a request that carries a title, the built record is primary or public only when the request says true; a null flag becomes false. The title and the other fields are copied. |
| ResumeService.Merge | backend/src/main/java/com/jobmanagement/service/ResumeService.java:69-94 | Each non-null request field overwrites the stored one, and each null field keeps it. The owner never changes. |
| ResumeService.MergeNothing | backend/src/main/java/com/jobmanagement/service/ResumeService.java:69-94 | An update whose fields are all null leaves the record as it was. |
| ResumeService.CreateKeepsOnePrimary | backend/src/main/java/com/jobmanagement/service/ResumeService.java:51-60 | Creating keeps "at most one primary per user", and a primary creation becomes its user's only primary. |
| ResumeService.UpdateKeepsOnePrimary | backend/src/main/java/com/jobmanagement/service/ResumeService.java:72-82 | Updating keeps "at most one primary per user", and setting the flag makes the résumé its owner's only primary. |
| ResumeService.DeleteKeepsOnePrimary | backend/src/main/java/com/jobmanagement/service/ResumeService.java:100-106 | Deleting keeps "at most one primary per user". |
| ResumeService.Service.constructor | backend/src/main/java/com/jobmanagement/service/ResumeService.java:20-21 | An empty résumé table over the given users satisfies the invariant. |
| ResumeService.Service.FindPrimary | backend/src/main/java/com/jobmanagement/service/ResumeService.java:53 | The query finds nothing exactly when the user has no primary résumé; otherwise it finds that user's only primary. |
| ResumeService.Service.GetResume | backend/src/main/java/com/jobmanagement/service/ResumeService.java:30-34 | A stored id gives its record, and a missing id fails with the not-found message. |
| ResumeService.Service.UnsetPrimary | backend/src/main/java/com/jobmanagement/service/ResumeService.java:53-57 | The table becomes `ClearPrimary` of the old table, and the invariant is kept. |
| ResumeService.Service.CreateResume | backend/src/main/java/com/jobmanagement/service/ResumeService.java:36-62 | An unknown user fails and changes nothing. A null title fails at the save of the not-null `title` column, and the rollback undoes the cleared primary flag, so nothing changes. Otherwise the new record is saved under a fresh id, after clearing the user's primary when the new one is primary; the invariant is kept. |
| ResumeService.Service.UpdateResume | backend/src/main/java/com/jobmanagement/service/ResumeService.java:64-98 | An unknown id fails and changes nothing. Otherwise the merged record is saved, after clearing the owner's primary when the flag is newly set; the invariant is kept. |
| ResumeService.Service.DeleteResume | backend/src/main/java/com/jobmanagement/service/ResumeService.java:100-106 | An unknown id fails and changes nothing. A résumé that an application still refers to through `resume_id` (a foreign key with no cascade) fails to delete, and the rollback leaves the table unchanged. Otherwise exactly that id is removed. |
| ApplicationService.ParseStatus | backend/src/main/java/com/jobmanagement/service/ApplicationService.java:85 | A parsed status is one whose enum name is exactly the string. |
| ApplicationService.ParseStatusExact | backend/src/main/java/com/jobmanagement/service/ApplicationService.java:85 | Parsing accepts exactly the four enum names, and each name parses back to its own constant. |
| ApplicationService.CreatedStatus | backend/src/main/java/com/jobmanagement/service/ApplicationService.java:82-91 | The stored status is the parsed one when the string is a valid name. A null or invalid string gives `APPLIED`. |
| ApplicationService.Merge | backend/src/main/java/com/jobmanagement/service/ApplicationService.java:102-114 | A non-null date or notes field overwrites the stored one, and a null keeps it. A valid status name sets the status, while a null or invalid one is silently ignored. Owner, company, résumé and cover letter never change. |
| ApplicationService.StatsAddUp | backend/src/main/java/com/jobmanagement/service/ApplicationService.java:38-51 | The four per-status counts of a user add up to the total, since every application has exactly one status. |
| ApplicationService.Service.constructor | backend/src/main/java/com/jobmanagement/service/ApplicationService.java:19-23 | An empty application table over the given users, companies, résumés and cover letters. |
| ApplicationService.Service.SplitByDate | backend/src/main/java/com/jobmanagement/service/ApplicationService.java:25-26 | The user's applications split into dated and undated ones. Each id appears exactly once, in the part matching its date. |
| ApplicationService.Service.GetApplicationsByUser | backend/src/main/java/com/jobmanagement/service/ApplicationService.java:25-30 | Exactly the user's applications, each once, with dated ones in non-increasing date order. |
| ApplicationService.Service.GetApplication | backend/src/main/java/com/jobmanagement/service/ApplicationService.java:32-36 | A stored id gives its record, and a missing id fails with the not-found message. |
| ApplicationService.Service.GetApplicationStats | backend/src/main/java/com/jobmanagement/service/ApplicationService.java:38-51 | The total and the four per-status counts are the sizes of the user's applications and of those with each status. The four add up to the total. |
| ApplicationService.Service.CreateApplication | backend/src/main/java/com/jobmanagement/service/ApplicationService.java:54-95 | Checks run in order: the user, the company, then a given résumé and a given cover letter must exist, each with its own message. A failure changes nothing. Success stores a record under a fresh id with `CreatedStatus` of the request. |
| ApplicationService.Service.UpdateApplication | backend/src/main/java/com/jobmanagement/service/ApplicationService.java:97-118 | An unknown id fails and changes nothing. Otherwise exactly that record becomes `Merge` of it and the request. |
| ApplicationService.Service.UpdateApplicationStatus | backend/src/main/java/com/jobmanagement/service/ApplicationService.java:120-133 | An unknown id fails. An invalid name fails with the message naming it, leaving the table unchanged. A valid name sets exactly that status and nothing else. |
| ApplicationService.Service.DeleteApplication | backend/src/main/java/com/jobmanagement/service/ApplicationService.java:135-141 | An unknown id fails and changes nothing. Otherwise exactly that id is removed. |
| UserService.ParseCareerLevel | backend/src/main/java/com/jobmanagement/service/UserService.java:37 | Only the exact names "NEWCOMER" and "EXPERIENCED" parse, each to its own level. |
| UserService.Merge | backend/src/main/java/com/jobmanagement/service/UserService.java:28-47 | Each non-null name, job category, image URL or matching flag overwrites the stored value, and a null keeps it. A valid career level replaces the stored one, while an invalid one is ignored. The columns no update touches stay as they were. |
| UserService.OnlyProfileFieldsMatter | backend/src/main/java/com/jobmanagement/service/UserService.java:28-47 | Two requests that agree on the five profile fields update a user the same way, whatever else they carry. |
| UserService.MergeIdempotent | backend/src/main/java/com/jobmanagement/service/UserService.java:28-47 | Applying the same request twice is the same as applying it once. |
| UserService.Service.GetUser | backend/src/main/java/com/jobmanagement/service/UserService.java:17-21 | A stored id gives its record, and a missing id fails with the not-found message. |
| UserService.Service.UpdateUser | backend/src/main/java/com/jobmanagement/service/UserService.java:23-51 | An unknown id fails and changes nothing. Otherwise exactly that user becomes `Merge` of the record and the request. |
| PostService.Service.constructor | backend/src/main/java/com/jobmanagement/service/PostService.java:20-21 | An empty post table over the given users. |
| PostService.Service.GetPostsByUser | backend/src/main/java/com/jobmanagement/service/PostService.java:23-26 | Exactly the ids of the posts written by the user. |
| PostService.Service.GetPost | backend/src/main/java/com/jobmanagement/service/PostService.java:28-32 | A stored id gives its record, and a missing id fails with the not-found message. |
| PostService.Service.CreatePost | backend/src/main/java/com/jobmanagement/service/PostService.java:34-44 | An unknown author fails and changes nothing. Otherwise the post with that author and content is stored under a fresh id. |
| PostService.Service.UpdatePost | backend/src/main/java/com/jobmanagement/service/PostService.java:46-55 | An unknown id fails. Null content keeps the post as it was, and non-null content replaces the content only. |
| PostService.Service.DeletePost | backend/src/main/java/com/jobmanagement/service/PostService.java:57-63 | An unknown id fails and changes nothing. Otherwise exactly that id is removed. |
| CommunityFeed.ToggleLike | components/community/community-feed.tsx:173-181 | A liked post is unliked and loses a like, and an unliked post is liked and gains one. No other field changes. |
| CommunityFeed.LikePost | components/community/community-feed.tsx:170-196 | Posts with the id are toggled, and all other posts are unchanged, in place. |
| CommunityFeed.LikeTwice | components/community/community-feed.tsx:170-196 | Liking the same id twice restores the list exactly. |
| CommunityFeed.LikeMovesTotalByOne | components/community/community-feed.tsx:177-178 | When one post has the id, a like moves the list's like total by exactly one, down if it was liked and up if not. |
| CommunityFeed.NewPost | components/community/community-feed.tsx:199-214 | The new post has the fresh id, the content and the current user as author. Its images are the given ones, or none when none were given. Likes, comments and reposts are 0 and it is not liked. |
| CommunityFeed.DeletePost | components/community/community-feed.tsx:220-226 | Exactly the posts with the id go, and the rest keep their order. Each kept element stays as often as the list held it. |
| CommunityFeed.DeleteAbsent | components/community/community-feed.tsx:220-226 | Deleting an id that no post has changes nothing. |
| CommunityFeed.Feed.HandleLike | components/community/community-feed.tsx:170-196 | Both the feed and the user's own posts get the same like toggle. |
| CommunityFeed.Feed.HandleCreatePost | components/community/community-feed.tsx:198-218 | The same new post goes on top of both lists. |
| CommunityFeed.Feed.HandleDeletePost | components/community/community-feed.tsx:220-226 | The id leaves both lists. |
| UserProfile.NeverFollowingOneself | components/community/user-profile.tsx:30-90 | No page is both the viewer's own and followed on load. |
| UserProfile.Profile.constructor | components/community/user-profile.tsx:28-91 | Loading a page marks it as the viewer's own exactly for "nagundo" and as followed exactly for "devkim", and stores the page's posts. |
| UserProfile.Profile.HandleToggleFollow | components/community/user-profile.tsx:97-99 | The follow flag is negated and nothing else changes, so two toggles are the identity. |
| UserProfile.Profile.HandleLike | components/community/user-profile.tsx:101-113 | The profile's posts get the feed's like toggle, on the matching post only. |
| FollowingList.ToggleFollow | components/community/following-list.tsx:81-83 | `isFollowing` flips for the users with the id only, and every other field and user is unchanged. |
| FollowingList.ToggleFollowTwice | components/community/following-list.tsx:79-85 | Toggling the same id twice gives back the list. |
| FollowingList.Search | components/community/following-list.tsx:87-97 | The result keeps list order, and a user is kept exactly when the lower-cased query occurs in the lower-cased name or username. Each kept element stays as often as the list held it. |
| FollowingList.SearchEmptyKeepsAll | components/community/following-list.tsx:87-97 | The empty query keeps everyone. |
| FollowingList.SearchIgnoresCase | components/community/following-list.tsx:89-90 | A query and its lower-cased form select the same users. |
| FollowingList.View.HandleToggleFollow | components/community/following-list.tsx:79-85 | Only the chosen list is toggled; the other list and the query are unchanged. |
| FollowingList.View.TabCounts | components/community/following-list.tsx:175-182 | The tab labels count the unfiltered lists, so they are never below what the search shows. |
| MyPostsList.FilteredPosts | components/community/my-posts-list.tsx:35-46 | "liked" keeps exactly the liked posts and "commented" exactly those with comments. "all" and any unknown tab keep every post. Every result keeps list order. Each kept element stays as often as the list held it. |
| MyPostsList.FilteredPostsOnly | components/community/my-posts-list.tsx:39-42 | Every post a tab shows is from the list. Under "liked" it is liked, and under "commented" it has comments. |
| MyPostsList.View.SetActiveTab | components/community/my-posts-list.tsx:32 | The active tab becomes the chosen one. |
| PostCard.DisplayContent | components/community/post-card.tsx:72-74 | When the text is cut, the display is the first 280 characters plus "...", 283 characters long. Otherwise it is the whole content. Either way it starts like the content. |
| PostCard.OneButtonForLongContent | components/community/post-card.tsx:157-172 | "Show more" and "collapse" never both show, and long content always shows one of them. Content of at most 280 characters is never cut. |
| PostCard.Card.constructor | components/community/post-card.tsx:51-52 | The dialog is closed and the card collapsed. |
| PostCard.Card.HandleDelete | components/community/post-card.tsx:58-60 | The confirmation dialog opens. |
| PostCard.Card.ConfirmDelete | components/community/post-card.tsx:62-65 | The post's id goes to `onDelete` and the dialog closes. |
| PostCard.Card.CancelDelete | components/community/post-card.tsx:67-69 | The dialog closes without calling `onDelete`. |
| PostCard.Card.SetExpanded | components/community/post-card.tsx:159-167 | The two buttons set the expanded flag, leaving the dialog alone. |
| CreatePostForm.Placeholder | components/community/create-post-form.tsx:34-36 | File i of an upload gets the fixed demo prefix followed by a decimal numeral that reads back as i + 1. |
| CreatePostForm.PlaceholdersDiffer | components/community/create-post-form.tsx:34-36 | Different files of one upload get different URLs. |
| CreatePostForm.Placeholders | components/community/create-post-form.tsx:34-36 | An upload of n files yields n URLs, the i-th one for file i. |
| CreatePostForm.Form.constructor | components/community/create-post-form.tsx:17-19 | Empty content, no images, collapsed. |
| CreatePostForm.Form.HandleContentChange | components/community/create-post-form.tsx:22-27 | The text is stored. Non-empty text expands the form, and nothing collapses it. |
| CreatePostForm.Form.HandleClick | components/community/create-post-form.tsx:70 | A click in the text area expands the form and changes nothing else. |
| CreatePostForm.Form.HandleImageUpload | components/community/create-post-form.tsx:29-40 | No files change nothing. Otherwise one placeholder per file is appended and the form expands. |
| CreatePostForm.Form.HandleRemoveImage | components/community/create-post-form.tsx:42-44 | Exactly the image at the index is removed. |
| CreatePostForm.Form.HandleSubmit | components/community/create-post-form.tsx:46-54 | Blank content submits nothing and changes nothing. Otherwise the content goes out, with the images or undefined when there are none, and the form resets and collapses. |
| SpecManagement.RemoveSkill | components/spec-management.tsx:77-79 | The removed skill no longer appears. Every other skill stays, in its order. |
| SpecManagement.SubsequenceNoDuplicates | components/spec-management.tsx:70-79 | Removing keeps the skill list free of duplicates, as `addSkill` builds it. |
| SpecManagement.SubsequenceMember | components/spec-management.tsx:77-79 | Every skill left after a removal was in the list before. |
| SpecManagement.ToggleSection | components/spec-management.tsx:66-68 | A click on the open section closes it, and a click on any other section opens that one. |
| SpecManagement.ToggleSectionTwice | components/spec-management.tsx:66-68 | Two clicks on the same section leave it closed, unless it was open to begin with, when it ends open again. |
| SpecManagement.Page.constructor | components/spec-management.tsx:37-49 | Five starting skills, empty input, no section open, no card being edited, and the three starting career cards. |
| SpecManagement.Page.AddSkill | components/spec-management.tsx:70-75 | A non-blank input not yet in the list is appended trimmed and the input is cleared. Otherwise nothing changes. The list stays free of duplicates. |
| SpecManagement.Page.HandleRemoveSkill | components/spec-management.tsx:77-79 | The skills become `RemoveSkill` of the old ones, still free of duplicates, and nothing else changes. |
| SpecManagement.Page.HandleSectionClick | components/spec-management.tsx:66-68 | Only the open section changes, by `ToggleSection`. |
| SpecManagement.Page.HandleEditCard | components/spec-management.tsx:51-54 | The card and its text are put in editing. |
| SpecManagement.Page.SaveCardEdit | components/spec-management.tsx:56-64 | With a card being edited, its value becomes the edited text and editing ends. With none, nothing changes. |
| SpecManagement.Blanks | components/spec-management.tsx:566-577 | The blank record has exactly the given fields, each empty. |
| SpecManagement.BlankEntry | components/spec-management.tsx:566-577 | A new entry's id is the form's prefix followed by the time stamp. Every other field is that form's blank value. |
| SpecManagement.RemoveEntry | components/spec-management.tsx:579-583 | With one entry or none nothing is removed. Otherwise the result keeps list order, holds no entry with the id, and keeps every other entry as often as the list held it. |
| SpecManagement.RemoveEntryKeepsOne | components/spec-management.tsx:579-583 | With distinct ids a form never loses its last entry. |
| SpecManagement.RemoveEntrySharedIdEmpties | components/spec-management.tsx:579-583 | Two entries stamped in the same millisecond share an id, and removing it empties the form. The one-entry guard relies on distinct ids. |
| SpecManagement.UpdateEntry | components/spec-management.tsx:585-587 | Entries with the id get the field set to the value, with every other field kept. All other entries are unchanged, and the length is kept. |
| SpecManagement.UpdateEntryKeepsIds | components/spec-management.tsx:585-587 | Updating a field other than the id keeps the ids distinct. |
| SpecManagement.EntryForm.constructor | components/spec-management.tsx:554-564 | The form starts with one blank entry and satisfies its invariant: at least one entry, no two sharing an id. |
| SpecManagement.EntryForm.Add | components/spec-management.tsx:566-577 | One blank entry is appended. A stamp that is new to the form keeps the invariant. |
| SpecManagement.EntryForm.Remove | components/spec-management.tsx:579-583 | The entries become `RemoveEntry` of the old ones. With the invariant, the form keeps at least one entry and its ids stay distinct. |
| SpecManagement.EntryForm.Update | components/spec-management.tsx:585-587 | The entries become `UpdateEntry` of the old ones. A field other than the id keeps the invariant. |
| ProfileCompletion.CompleteMeans | components/profile-completion.tsx:46-64 | A section is complete exactly when it holds a non-empty array, a string that is not all white space, or an object with at least one key. Booleans, numbers and missing data never count. |
| ProfileCompletion.CompletedSections | components/profile-completion.tsx:44-66 | The completed ids are exactly the complete sections, in section order. |
| ProfileCompletion.IncompleteSections | components/profile-completion.tsx:94 | The incomplete ids are exactly the sections that are not complete. |
| ProfileCompletion.CompletedAndIncompletePartition | components/profile-completion.tsx:44-94 | Completed and incomplete sections are disjoint and together cover all ten. |
| ProfileCompletion.Percentage | components/profile-completion.tsx:93 | The rounded percentage is the integer nearest the ratio, halves rounding up. It lies in 0..100 whenever the count is at most the total. |
| ProfileCompletion.TenSectionsPercentage | components/profile-completion.tsx:79-93 | With ten sections each completed section is worth exactly ten percent. |
| ProfileCompletion.CompletionPercentage | components/profile-completion.tsx:92-93 | The card shows ten times the number of completed sections, within 0..100. |
| ProfileCompletion.SampleSections | components/profile-completion.tsx:15-26 | In the placeholder record, work, education, skill, goal, introduction and military are complete. The four empty arrays are not. |
| ProfileCompletion.SampleIsSixtyPercent | components/profile-completion.tsx:15-93 | The placeholder record gives those six sections in section order, and 60%. |
| QuestionBlock.WarningAbove450 | components/cover-letter/question-block.tsx:74 | The counter turns amber exactly above 450 characters. |
| QuestionBlock.WarningBand | components/cover-letter/question-block.tsx:29-74 | Within the 500-character cap, the amber band is exactly 451..500. |
| QuestionBlock.Block.constructor | components/cover-letter/question-block.tsx:28-33 | On mount the counter shows the content's length. |
| QuestionBlock.Block.HandleContentChange | components/cover-letter/question-block.tsx:35-41 | An edit within 500 characters is forwarded and counted. A longer one is dropped and nothing changes. The counter stays in step with the content. |
| QuestionBlock.Block.ReceiveContent | components/cover-letter/question-block.tsx:31-33 | A new content prop resets the counter to its length. |
| CoverLetterEditor.NewQuestion | components/cover-letter/cover-letter-editor.tsx:40-44 | A new question has the "question-" id for the stamp and an empty title and content. |
| CoverLetterEditor.AddQuestion | components/cover-letter/cover-letter-editor.tsx:39-45 | One blank question is appended after the unchanged old ones. |
| CoverLetterEditor.RemoveLast | components/cover-letter/cover-letter-editor.tsx:68-79 | With more than one question the last is dropped. Otherwise nothing changes, so at least one question always remains. |
| CoverLetterEditor.RemoveLastUndoesAdd | components/cover-letter/cover-letter-editor.tsx:39-79 | Removing the last question right after adding one gives back the list, when it was non-empty. |
| CoverLetterEditor.SetField | components/cover-letter/cover-letter-editor.tsx:81-83 | Exactly the chosen field gets the value, and the id and the other field are kept. |
| CoverLetterEditor.UpdateQuestion | components/cover-letter/cover-letter-editor.tsx:81-83 | Questions with the id get the field set, and all others are unchanged. |
| CoverLetterEditor.UpdateQuestionSameValue | components/cover-letter/cover-letter-editor.tsx:81-83 | Writing a question's current value back changes nothing. |
| CoverLetterEditor.VisibleCount | components/cover-letter/cover-letter-editor.tsx:213-217 | Never more questions show than exist. |
| CoverLetterEditor.VisibleCountIs | components/cover-letter/cover-letter-editor.tsx:213-224 | With multiple questions on, all show. With it off, only the first does. |
| CoverLetterEditor.Editor.constructor | components/cover-letter/cover-letter-editor.tsx:20-37 | After the mount effect the editor holds exactly one blank question and an empty title. Multiple questions are on. |
| CoverLetterEditor.Editor.RefillIfEmpty | components/cover-letter/cover-letter-editor.tsx:33-37 | An empty list gets one blank question, and any other list is left alone. |
| CoverLetterEditor.Editor.AddQuestionClick | components/cover-letter/cover-letter-editor.tsx:39-45 | The list becomes `AddQuestion` of the old one. |
| CoverLetterEditor.Editor.RemoveLastQuestion | components/cover-letter/cover-letter-editor.tsx:68-79 | The list becomes `RemoveLast` of the old one and never empties. |
| CoverLetterEditor.Editor.UpdateQuestionField | components/cover-letter/cover-letter-editor.tsx:81-83 | The list becomes `UpdateQuestion` of the old one. |
| CoverLetterEditor.Editor.SetShowMultipleQuestions | components/cover-letter/cover-letter-editor.tsx:199 | The switch sets the flag only. |
| CoverLetterEditor.Editor.SetTitle | components/cover-letter/cover-letter-editor.tsx:194 | The title input sets the title only. |
| ConditionsEditPanel.WithList | components/conditions-edit-panel.tsx:44-47 | Exactly the named list is replaced, and every other field is kept. |
| ConditionsEditPanel.Change | components/conditions-edit-panel.tsx:26-31 | Exactly the named text field gets the value, and every other field is kept. |
| ConditionsEditPanel.AddItem | components/conditions-edit-panel.tsx:33-41 | A blank value changes nothing. Otherwise its trimmed text is appended to the list and the input is emptied, with everything else kept. |
| ConditionsEditPanel.RemoveItem | components/conditions-edit-panel.tsx:43-48 | Exactly the entry at the index leaves that list, and everything else is kept. |
| ConditionsEditPanel.RemoveUndoesAdd | components/conditions-edit-panel.tsx:33-48 | Removing the entry just added restores the lists, and only the input stays emptied. |
| ConditionsEditPanel.AddItemKeepsClean | components/conditions-edit-panel.tsx:33-41 | Adding keeps every tag non-blank and trimmed. |
| ConditionsEditPanel.RemoveItemKeepsClean | components/conditions-edit-panel.tsx:43-48 | Removing keeps every tag non-blank and trimmed. |
| ConditionsEditPanel.InitialClean | components/conditions-edit-panel.tsx:16-24 | The starting tags are non-blank and trimmed. |
| ConditionsEditPanel.Panel.constructor | components/conditions-edit-panel.tsx:16-24 | The starting conditions. |
| ConditionsEditPanel.Panel.HandleChange | components/conditions-edit-panel.tsx:26-31 | The state becomes `Change` of the old one, and tags stay clean. |
| ConditionsEditPanel.Panel.HandleAddItem | components/conditions-edit-panel.tsx:33-41 | The state becomes `AddItem` of the old one, and tags stay clean. |
| ConditionsEditPanel.Panel.HandleRemoveItem | components/conditions-edit-panel.tsx:43-48 | The state becomes `RemoveItem` of the old one, and tags stay clean. |
| JobCalendarView.Check | components/job-calendar/job-calendar-view.tsx:113-124 | A missing title, start or end is refused first. A start after the end is refused next. Otherwise the period is accepted, with start no later than end. |
| JobCalendarView.AddCompany | components/job-calendar/job-calendar-view.tsx:113-135 | A refused form leaves the list and gives its reason. An accepted one appends exactly the posting with the stamp id, the form's fields and a palette colour, keeping every period ordered. |
| JobCalendarView.DeleteCompany | components/job-calendar/job-calendar-view.tsx:87-89 | Exactly the postings with the id go, and the rest keep their order. Each kept element stays as often as the list held it. |
| JobCalendarView.DeleteUndoesAdd | components/job-calendar/job-calendar-view.tsx:87-135 | Deleting a freshly added posting by its new id gives back the list. |
| JobCalendarView.DeleteKeepsOrdered | components/job-calendar/job-calendar-view.tsx:87-89 | Deleting keeps every posting's start no later than its end. |
| JobCalendarView.InitialOrdered | components/job-calendar/job-calendar-view.tsx:35-72 | The five starting postings each start no later than they end. |
| JobCalendarView.View.constructor | components/job-calendar/job-calendar-view.tsx:34-85 | The starting postings, an empty form, nothing hovered or selected, and the calendar on today. |
| JobCalendarView.View.HandleDeleteCompany | components/job-calendar/job-calendar-view.tsx:87-89 | The list becomes `DeleteCompany` of the old one. |
| JobCalendarView.View.HandleCompanyMouseEnter | components/job-calendar/job-calendar-view.tsx:91-93 | The posting becomes the hovered one. |
| JobCalendarView.View.HandleCompanyMouseLeave | components/job-calendar/job-calendar-view.tsx:95-97 | Nothing is hovered. |
| JobCalendarView.View.HandleEventClick | components/job-calendar/job-calendar-view.tsx:99-102 | The posting is selected and its details open. |
| JobCalendarView.View.HandleCompanyClick | components/job-calendar/job-calendar-view.tsx:105-111 | The calendar moves to the posting's start, the posting is selected and its details open. |
| JobCalendarView.View.HandleAddCompany | components/job-calendar/job-calendar-view.tsx:113-142 | A refused form reports its reason and changes nothing. An accepted one appends the posting by `AddCompany`, empties the form and closes it. |
| SimpleCalendar.StartOfDay | components/job-calendar/SimpleCalendar.tsx:99 | Midnight of the same day, at most the time itself. |
| SimpleCalendar.EndOfDay | components/job-calendar/SimpleCalendar.tsx:100 | The last millisecond of the same day, at least the time itself. |
| SimpleCalendar.Normalise | components/job-calendar/SimpleCalendar.tsx:99-100 | Only the times change, and each stays on its own day. |
| SimpleCalendar.NormaliseIdempotent | components/job-calendar/SimpleCalendar.tsx:96-103 | Normalising twice is normalising once, so repeated renders see the same postings. |
| SimpleCalendar.CoversIffDayInRange | components/job-calendar/SimpleCalendar.tsx:97-101 | A posting covers a time exactly when the time's day lies in the posting's inclusive day range. |
| SimpleCalendar.NormaliseAll | components/job-calendar/SimpleCalendar.tsx:99-100 | Every posting is normalised, in place and in order. |
| SimpleCalendar.EventsForDay | components/job-calendar/SimpleCalendar.tsx:96-103 | The day's events are, in list order, exactly the postings whose day range holds the day. Each kept element stays as often as the list held it. The list itself comes back normalised. |
| SimpleCalendar.Shown | components/job-calendar/SimpleCalendar.tsx:201 | A cell shows the first three events, or all when fewer. |
| SimpleCalendar.More | components/job-calendar/SimpleCalendar.tsx:219-221 | The "+N" label appears exactly past three events and counts those not shown. |
| SimpleCalendar.HighlightedIffHoveredCovers | components/job-calendar/SimpleCalendar.tsx:170 | A day is highlighted exactly when some posting with the hovered id covers that day. |
| SimpleCalendar.CalendarDays | components/job-calendar/SimpleCalendar.tsx:49-63 | The grid is the consecutive days from the Sunday on or before the 1st to the Saturday on or after the last day. |
| SimpleCalendar.GridEndsAfterStart | components/job-calendar/SimpleCalendar.tsx:50-59 | The grid starts no later than the 1st and ends no earlier than the month's last day. |
| SimpleCalendar.CalendarDaysWeeks | components/job-calendar/SimpleCalendar.tsx:49-63 | The grid is whole weeks, 28 to 42 days. |
| SimpleCalendar.CalendarDaysSundayToSaturday | components/job-calendar/SimpleCalendar.tsx:56-59 | The grid's first day is a Sunday and its last a Saturday. |
| SimpleCalendar.CalendarDaysHoldMonth | components/job-calendar/SimpleCalendar.tsx:49-63 | From the 1st's weekday on, the grid lists the month's days in order. |
| SimpleCalendar.Calendar.CurrentDate | components/job-calendar/SimpleCalendar.tsx:44 | The parent's date when given, otherwise the internal one. |
| SimpleCalendar.Calendar.constructor | components/job-calendar/SimpleCalendar.tsx:41-63 | The internal date is today, and the grid is that of the current date. |
| SimpleCalendar.Calendar.ComputeDays | components/job-calendar/SimpleCalendar.tsx:49-63 | The grid becomes `CalendarDays` of the current date. |
| SimpleCalendar.Calendar.Navigate | components/job-calendar/SimpleCalendar.tsx:66-93 | With a listening parent the new date goes to the parent and the internal date stays. Otherwise the internal date becomes it. |
| SimpleCalendar.Calendar.PrevMonth | components/job-calendar/SimpleCalendar.tsx:66-73 | Navigates to one month before the current date. |
| SimpleCalendar.Calendar.NextMonth | components/job-calendar/SimpleCalendar.tsx:76-83 | Navigates to one month after the current date. |
| SimpleCalendar.Calendar.GoToToday | components/job-calendar/SimpleCalendar.tsx:86-93 | Navigates to today. |
| SimpleCalendar.Calendar.GetEventsForDay | components/job-calendar/SimpleCalendar.tsx:96-103 | It returns the day's events and leaves the postings normalised, as `EventsForDay` states. |
| CivilDate.DaysInMonth | components/bubble-chart.tsx:309-311 | A month has 28 to 31 days, by the Gregorian leap-year rule. |
| CivilDate.FirstDayOfMonth | components/bubble-chart.tsx:314-316 | The weekday of the 1st, 0 for Sunday through 6. |
| CivilDate.PrevMonth | components/bubble-chart.tsx:289-296 | One month back, wrapping from January to December of the year before. |
| CivilDate.NextMonth | components/bubble-chart.tsx:299-306 | One month on, wrapping from December to January of the next year. |
| CivilDate.PrevNextInverse | components/bubble-chart.tsx:289-306 | The two buttons undo each other. |
| CivilDate.MonthsAreContiguous | components/bubble-chart.tsx:309-316 | The day after a month's last day is the 1st of the next month. |
| CivilDate.AddMonths | components/job-calendar/SimpleCalendar.tsx:76-83 | The date n months on. The day is kept, or clamped to the month's last day when the month is shorter. |
| CivilDate.SubMonths | components/job-calendar/SimpleCalendar.tsx:66-73 | The date n months back, clamped the same way. |
| CivilDate.SubThenAddKeepsMonth | components/job-calendar/SimpleCalendar.tsx:66-83 | Going back a month and forward again, or forward and back, returns to the same month. |
| UseApplications.RemoveFirstUnderscore | hooks/use-applications.ts:91 | A string pattern replaces only the first underscore. Without one the string is unchanged, and with one it is one character shorter. |
| UseApplications.LowerKeepsUnderscores | hooks/use-applications.ts:91 | Lower-casing neither adds nor removes an underscore. |
| UseApplications.GroupKeyOneWord | hooks/use-applications.ts:91 | A status without an underscore, such as APPLIED or REJECTED, groups under its lower-cased form. |
| UseApplications.GroupKeyTwoWords | hooks/use-applications.ts:91 | A status such as DOCUMENT_PASS or FINAL_PASS groups under its two words lower-cased and joined, "documentpass" or "finalpass". |
| UseApplications.UnderscoreAfterLetters | hooks/use-applications.ts:91 | Only the first underscore goes, and what follows it is kept. |
| UseApplications.ApplicationsByStatus | hooks/use-applications.ts:90-97 | The loop computes exactly the `reduce` fold `Grouping` of the list. |
| UseApplications.GroupStep | hooks/use-applications.ts:92-95 | One push extends its own group by the application and leaves every other group alone. |
| UseApplications.PushKeepsGroups | hooks/use-applications.ts:92-95 | Pushing one application onto the grouping of a list gives the grouping of the list extended by it. |
| UseApplications.GroupingCorrect | hooks/use-applications.ts:90-97 | A key has a group exactly when some application has that key. The group is non-empty and holds that key's applications, in list order. |
| UseApplications.GroupsPartition | hooks/use-applications.ts:90-97 | Each application is in the group of its own key and in no other. |
| UseApplications.BumpStats | hooks/use-applications.ts:42-48 | After a create the total and the applied count go up by one, and the rest is kept. |
| UseApplications.BumpKeepsBalance | hooks/use-applications.ts:42-48 | The bump keeps the total equal to the sum of the four counts exactly when it was before. |
| UseApplications.ReplaceById | hooks/use-applications.ts:60-62 | Entries with the id become the server's copy, and the others stay. |
| UseApplications.ReplaceByIdIdempotent | hooks/use-applications.ts:60-62 | Replacing a second time changes nothing more. |
| UseApplications.RemoveById | hooks/use-applications.ts:78 | Exactly the entries with the id go, in order. Each kept element stays as often as the list held it. |
| UseApplications.RemoveUndoesAppend | hooks/use-applications.ts:39-78 | Deleting an application just created with a new id gives back the list. |
| UseApplications.Store.constructor | hooks/use-applications.ts:5-8 | Empty list, no statistics, loading, no error. |
| UseApplications.Store.FetchData | hooks/use-applications.ts:10-31 | Without a user id nothing happens. Otherwise both results are stored, or the first failure is recorded with the old data kept, and loading ends. |
| UseApplications.Store.CreateApplication | hooks/use-applications.ts:33-55 | On success the application is appended and loaded statistics are bumped. On failure the error is recorded and rethrown, with nothing else changing. |
| UseApplications.Store.UpdateApplicationStatus | hooks/use-applications.ts:57-73 | On success the entry is replaced by `ReplaceById`, then the statistics are refetched. A failure of either call is recorded and returned, and a failed refetch keeps the updated list. |
| UseApplications.Store.DeleteApplication | hooks/use-applications.ts:75-87 | On success the entries go by `RemoveById`, then the statistics are refetched. Failures are handled as for the status update. |

## Left out

- Canvas drawing: gradients, curves, text and fonts, and the device-pixel-ratio backing store. Only the numbers fed to the drawing calls are modelled: geometry, colours and opacity.
- Frame scheduling: `requestAnimationFrame`, `setTimeout` and resize listeners become explicit method calls. The `Frame`/`Fire` handle counter stands for the browser's handles.
- Floating point: progress and geometry are exact rationals. The 34-tick count is the same under IEEE doubles, but rounding in the pixel values is not modelled.
- `scrollIntoView` and `focus` in the cover-letter editor, and the 100 ms delay in `removeLastQuestion`. The model removes the last question when the handler runs. The delayed call's stale list, which can lose an edit made inside the 100 ms, is not modelled.
- The network: the API client and the `await`s in the applications hook. Each response is a `Result` passed in, and the order of concurrent responses is not modelled.
- Loading flags and spinners beyond the applications hook's `loading`, and every `console` message.
- Spring plumbing: controllers, JPA entities, repositories and DTO mappers. Repositories are maps from id to record. Transaction rollback is modelled as a failed call leaving the map as it was.
- ResumeService.Service.CreateResume: the `length = 200` limits on the title and the other text columns are not modelled, so a longer value is stored whole. Whether the database truncates or refuses it depends on its SQL mode. The not-null title is modelled. The exact text of the persistence layer's exception is not: `TitleNull` stands for it.
- ResumeService.Service.DeleteResume: the applications' references arrive as the `referenced` set of résumé ids; the model does not derive it from the application service's table. The exact text of the constraint exception is not modelled: `ResumeReferenced` stands for it.
- PostService.Service.CreatePost: the owner id of a request is an `int` and cannot be null. In the source, a request without a user id makes `findById(null)` throw `IllegalArgumentException` before the not-found check. `ResumeService.Service.CreateResume` and `ApplicationService.Service.CreateApplication` have the same gap.
- The pass rates of the statistics DTO, a `Double` division.
- `ResumeService.getResumesByUser`, a plain repository query.
- The date library's internals. Dates are Gregorian day numbers with a weekday function, and instants are milliseconds on a local clock. Time zones and daylight saving are not modelled.
- `localeCompare` in the résumé sort, modelled as code-point order on strings.
- The `ko-KR` date text of a copied résumé, which becomes the `stamp` parameter.
- `Math.random()`, which becomes the palette index `pick`, and `Date.now()`, which becomes a `stamp` or fresh-id parameter.
- FollowingList.Search: lower-casing folds only 'A' to 'Z'. JavaScript's `toLowerCase` also folds accented Latin, Greek, Cyrillic and full-width letters, so a query and a name that differ only in such letters match in the source and not in the model.
- FollowingList.SearchIgnoresCase: proved for the ASCII lower-casing only, for the same reason.
- Character counts: JavaScript counts UTF-16 code units and the model counts `char`s. They differ only outside the Basic Multilingual Plane, as with emoji.
- Rendering-only conditions are not stated as members: the question block's title input shown only under `showTitle`, the today and same-month styling of calendar days, and the framer-motion transitions. The handlers keep `showTitle` unchanged.
- The job-calendar form's input setters, which only assign the typed title and dates. The add handler reads the form as a `NewCompany` value.
- The conditions dialog's field-name arguments are strings in the source. The model restricts them to the three list fields and four text fields the dialog passes.
- Drag-and-drop data transfer on the kanban board: the JSON payload becomes the `Item` and source column passed to `HandleDrop`.
- `SimpleCalendar.Calendar.GetEventsForDay`: the source rewrites the `Date` objects it shares with the parent page. The model rewrites the calendar's own list, so the parent's copy is not shown changing.
- `ApplicationService.Service.GetApplicationStats`: the repository counts are never null in the model, so the source's null-to-zero fallback is not exercised.
- SpecManagement.EntryForm.Add: requires a stamp no entry of the form carries yet. The source's `Date.now()` stamps can repeat within one millisecond, and then the length guard no longer keeps the form non-empty, as `RemoveEntrySharedIdEmpties` shows.
- SpecManagement.EntryForm.Update: requires the updated field not to be the id. The form's inputs never write it.
- The posting calendar's `bookmark-list.tsx` is not part of this model. It is display-only apart from one date comparison.

## Findings

| source | as written | input that shows it | evidently intended | confidence | as-written member | corrected member |
|---|---|---|---|---|---|---|
| components/bubble-chart.tsx:224 | The gradient's lower stop uses `hsla(i * 40, 80%, 65%, 0.3)`, where `i` is the bar's rank after sorting. The upper stop uses the category's own hue. | A single company in "AI/ML": that category ranks first, so its bar fades from hue 280 to hue 0. | The lower stop uses the category's own hue, as the upper stop does. The drawing members paint the stop as written. `ShapeBounded` proves the two stops agree exactly when the rank equals the category's position. | not executed | BubbleChart.FadeAsWrittenMismatch | BubbleChart.Fade |
