# Portfolio site: selection, navigation and media logic

This project models, in Dafny, the logic of a single-page portfolio site written in React.
It leaves out the markup and styling. It covers:

- The data the mock API serves: projects with numbered stages, company sections with numbered items, the process, repositories and team members. It also covers the invariants the views rely on without checking them.
- The two media helpers of the projects view:
  - `getYouTubeId` extracts an 11-character video id with one fixed regular expression. It is modelled with the matching rules of ECMAScript regular expressions (ECMA-262, section 22.2): the greedy `^.*` makes the right-most marker on the first line win.
  - `getDrivePreviewUrl` rewrites a Drive `/d/<id>` address into its `/preview` address. The left-most match wins.
- How the stage viewer renders each media entry: a video frame, a document frame or an image, with its caption.
- The master/detail views:
  - projects, and the simplified projects view. The simplified view keeps the same state and the project and stage handlers (ProjectsSimplified.tsx:83-86, 115), but it renders no tag bar, so its filter stays `'all'`;
  - the company ("about") sections.
  - Their state is the loaded list, a loading flag, and the selection of a tag, a parent entry and a child entry. The loader and the click handlers change it.
  - Their derived values: the tag bar, the tag filter, the `find` lookups, the expanded entry, the badges and the connector lines.
- The layout's navigation state. The radial menu's mobile/desktop modes, its open/close panel, its angles and its highlighted entry.

State that React keeps in `useState` cells is modelled as fields of a class. The handlers that replace those cells are methods. Expressions computed during rendering are functions.

The menu's handlers call callbacks supplied by the layout. Here each menu method returns the `Callback` it invokes, and `MainLayout.Layout.Apply` runs it.

Modules:
- `Wrappers`: `Option`.
- `ArrayOps`: `find`, `filter`, `flatMap`, `Array.from(new Set(...))`.
- `Decimal`: the text of `${n}`.
- `MockApi`
- `MediaUrls`
- `Selection`
- `ProjectsSection`
- `AboutSection`
- `Radial`
- `MainLayout`

## Model

| member | source | states |
|---|---|---|
| ArrayOps.Find | src/components/sections/Projects.tsx:36-37 | `find` returns `undefined` exactly when no element satisfies the predicate; otherwise it returns an element of the list that does |
| ArrayOps.FindReturnsFirstMatch | src/components/sections/Projects.tsx:36 | `find` returns the first match, whatever follows it |
| ArrayOps.Filter | src/components/sections/Projects.tsx:34 | `filter` keeps the order (subsequence), keeps only matches, and keeps every match as often as it occurs |
| ArrayOps.FlatMap | src/components/sections/Projects.tsx:31 | `flatMap` contains exactly the elements of the mapped lists; over no element it is empty, and over one element it is that element's list |
| ArrayOps.FlatMapAppend | src/components/sections/Projects.tsx:31 | `flatMap` over a concatenation is the concatenation of the two results, so the lists appear in the order of their elements |
| ArrayOps.Distinct | src/components/sections/Projects.tsx:31 | `Array.from(new Set(xs))` has no duplicates and the same elements as `xs`, ordered by first occurrence in `xs` |
| MockApi.MockProjectsWellFormed | src/services/mockApi.ts:79-247 | the project fixtures have unique ids, and every project has stages numbered 1..n in list order |
| MockApi.MockCompanySectionsWellFormed | src/services/mockApi.ts:291-441 | the section fixtures have unique ids, and every section has items numbered 1..n in list order |
| MockApi.GetProjects | src/services/mockApi.ts:519-520 | `getProjects` resolves to the fixtures: two well-formed projects with ids '1' and '2' |
| MockApi.GetProcess | src/services/mockApi.ts:522-523 | `getProcess` resolves to three steps numbered 1..3 |
| MockApi.GetRepositories | src/services/mockApi.ts:525-526 | `getRepositories` resolves to four repositories whose code and result images are the placeholder |
| MockApi.GetTeam | src/services/mockApi.ts:528-529 | `getTeam` resolves to four members, each with a GitHub and a mail link |
| MockApi.GetCompanySections | src/services/mockApi.ts:531-532 | `getCompanySections` resolves to three well-formed sections with ids '1'..'3' |
| MediaUrls.RunEnd | src/components/sections/Projects.tsx:41 | a greedy character class ends where the longest run of accepted characters ends |
| MediaUrls.MaximalRunIsUnique | src/components/sections/Projects.tsx:41 | that end is the only maximal run end |
| MediaUrls.MarkerLength | src/components/sections/Projects.tsx:41 | a marker alternative that matches lies inside the string |
| MediaUrls.FirstLineEnd | src/components/sections/Projects.tsx:41 | `^.*` reaches up to the first line terminator, or the end of the string |
| MediaUrls.LastMarkerAtOrBelow | src/components/sections/Projects.tsx:41 | the backtracking of `^.*` finds the right-most marker at or below a position, or reports that there is none |
| MediaUrls.YouTubeId | src/components/sections/Projects.tsx:40-44 | a returned id has exactly 11 characters, none of them `#`, `&` or `?` |
| MediaUrls.PrefixReachableUpToLineEnd | src/components/sections/Projects.tsx:41 | `^.*` can consume a prefix exactly when it stops at or before the first line terminator |
| MediaUrls.YouTubeIdOfMatch | src/components/sections/Projects.tsx:41-43 | with the chosen (right-most reachable) marker at `p`, the result is the maximal `[^#&?]*` run after it when that run has 11 characters, and `null` otherwise |
| MediaUrls.YouTubeIdWithoutMarker | src/components/sections/Projects.tsx:42-43 | with no marker on the first line there is no match and the result is `null` |
| MediaUrls.MarkerEndsInSeparator | src/components/sections/Projects.tsx:41 | every marker ends in `/` or `=` |
| MediaUrls.MarkerSurvivesAppend | src/components/sections/Projects.tsx:41 | appending text does not change a marker already present |
| MediaUrls.YouTubeIdAfterPrefix | src/components/sections/Projects.tsx:41-43 | a link made of a prefix ending in the last marker and an id of `[A-Za-z0-9_-]` characters yields that id exactly when the id has 11 characters |
| MediaUrls.YouTubeIdOfShortLink | src/components/sections/Projects.tsx:41-43 | when every character of `v` is in `[A-Za-z0-9_-]`, `https://youtu.be/<v>` yields `v` if `v` has 11 characters, and `null` otherwise |
| MediaUrls.YouTubeIdOfWatchLink | src/components/sections/Projects.tsx:41-43 | when every character of `v` is in `[A-Za-z0-9_-]`, `https://www.youtube.com/watch?v=<v>` yields `v` if `v` has 11 characters, and `null` otherwise |
| MediaUrls.FixtureShortLinkId | src/services/mockApi.ts:145 | the video of the first project's fifth stage yields `A6aRkhlqWuE` |
| MediaUrls.FixtureEvaluationPlaceholderId | src/services/mockApi.ts:222 | the video of the second project's fifth stage, the placeholder `TU_VIDEO_ID_EVAL_BLANDY`, yields `null` |
| MediaUrls.FixtureFinalPlaceholderId | src/services/mockApi.ts:235 | the video of the second project's sixth stage, the placeholder `TU_VIDEO_ID_FINAL_BLANDY`, yields `null` |
| MediaUrls.FirstDriveMarkerFrom | src/components/sections/Projects.tsx:49 | the unanchored pattern starts at the left-most `/d/` followed by an id character, or there is none |
| MediaUrls.DrivePreviewUrl | src/components/sections/Projects.tsx:47-54 | the result is the input, or the preview prefix, a non-empty id and `/preview` |
| MediaUrls.DrivePreviewUrlOfMatch | src/components/sections/Projects.tsx:49-51 | with the left-most match at `p`, the result is the preview address of the maximal id run after `/d/` |
| MediaUrls.DrivePreviewUrlFallback | src/components/sections/Projects.tsx:53 | without a match, the input is returned unchanged |
| MediaUrls.DrivePreviewUrlOfFileUrl | src/components/sections/Projects.tsx:49-51 | `https://drive.google.com/file/d/<id><rest>`, where `rest` cannot continue the id, becomes the preview address of `id` |
| MediaUrls.DrivePreviewUrlIdempotent | src/components/sections/Projects.tsx:49-51 | applying the helper to its own result changes nothing |
| MediaUrls.FixtureDocumentPreview | src/services/mockApi.ts:93 | the document of the first project's first stage, a shared-file link, is framed at the preview address of the same file |
| MediaUrls.YouTubeEmbedSrc | src/components/sections/Projects.tsx:202 | the frame address is the embed prefix followed by the id when there is one, and by the text `null` exactly when there is none |
| MediaUrls.YouTubeEmbedSrcInjective | src/components/sections/Projects.tsx:202 | two links embed the same address exactly when they yield the same id (or both yield none) |
| MediaUrls.FixturePlaceholderEmbed | src/components/sections/Projects.tsx:202 | the video of the second project's fifth stage is embedded at `https://www.youtube.com/embed/null` |
| MediaUrls.Caption | src/components/sections/Projects.tsx:203 | the caption is `alt` when present; otherwise it is the stage title, ` - `, the noun, a space and the 1-based position in decimal |
| MediaUrls.CaptionsOfPositionsDiffer | src/components/sections/Projects.tsx:203 | without `alt`, entries at different positions get different captions |
| MediaUrls.MediaViewOf | src/components/sections/Projects.tsx:197-237 | YouTube entries render a frame on the embed address, PDFs a frame on the preview address that opens the original, and images and GIFs an image of the source; frame titles and image text are the caption with the nouns `video`, `documento` and `recurso` |
| MediaUrls.MediaPanel | src/components/sections/Projects.tsx:191-257 | the placeholder shows exactly when there is no current stage or it has no media; otherwise one rendered entry per media entry, in order |
| Decimal.NatToDecimal | src/components/sections/Projects.tsx:168 | `${n}` is a non-empty string of digits without a leading zero |
| Decimal.DecimalRoundTrip | src/components/sections/Projects.tsx:168 | reading the digits back gives the number |
| Decimal.NatToDecimalInjective | src/components/sections/Projects.tsx:168 | different numbers give different texts |
| Selection.ProjectTags | src/components/sections/Projects.tsx:31 | the flattened tags are exactly the tags of the projects; with one project they are its tag list |
| Selection.ProjectTagsAppend | src/components/sections/Projects.tsx:31 | the tags of earlier projects come before those of later ones, each project's in its own order |
| Selection.FixtureProjectTags | src/components/sections/Projects.tsx:31 | on the fixtures the flattened tags are the first project's tags followed by the second's |
| Selection.AllTags | src/components/sections/Projects.tsx:31 | `allTags` is 'all' followed by every project tag exactly once, in first-occurrence order |
| Selection.FilterByTag | src/components/sections/Projects.tsx:32-34 | 'all' keeps the full list; any other tag gives, in order, exactly the projects carrying it |
| Selection.TagButtonsSelectSomething | src/components/sections/Projects.tsx:86-89 | every tag in the bar selects at least one project |
| Selection.ProjectById | src/components/sections/Projects.tsx:36 | `currentProject` is a project with the selected id, and is absent exactly when no project has it |
| Selection.StageById | src/components/sections/Projects.tsx:37 | the stage lookup is a stage with the id, and is absent exactly when no stage has it |
| Selection.SectionById | src/components/sections/About.tsx:27 | `currentSection` is a section with the selected id, and is absent exactly when none has it |
| Selection.ItemById | src/components/sections/About.tsx:28 | the item lookup is an item with the id, and is absent exactly when none has it |
| Selection.CurrentStage | src/components/sections/Projects.tsx:37 | `currentStage` is absent when there is no current project or no stage with the active id |
| Selection.CurrentItem | src/components/sections/About.tsx:28 | `currentItem` is absent when there is no current section or no item with the active id |
| Selection.ProjectByIdIsFirst | src/components/sections/Projects.tsx:36 | the first project carrying an id is the one found |
| Selection.ProjectByIdOfUnique | src/components/sections/Projects.tsx:36 | with unique ids, looking up a project's id gives that project |
| Selection.SectionByIdOfUnique | src/components/sections/About.tsx:27 | with unique ids, looking up a section's id gives that section |
| Selection.StageByIdOfNumbered | src/components/sections/Projects.tsx:37 | on stages numbered 1..n, stage j is found exactly when 1 <= j <= n, and it is the j-th |
| Selection.ItemByIdOfNumbered | src/components/sections/About.tsx:28 | on items numbered 1..n, item j is found exactly when 1 <= j <= n, and it is the j-th |
| Selection.ResetStageIsFound | src/components/sections/Projects.tsx:118-121 | after the reset to stage 1, a found project on well-formed data shows its first stage |
| Selection.ResetItemIsFound | src/components/sections/About.tsx:73-76 | after the reset to item 1, a found section on well-formed data shows its first item |
| Selection.DefaultProjectSelectionResolves | src/components/sections/Projects.tsx:13-14 | the initial selection ('1', 1) resolves in the fixtures to the first project's first stage |
| Selection.DefaultSectionSelectionResolves | src/components/sections/About.tsx:9-10 | the initial selection ('1', 1) resolves in the fixtures to the first section's first item |
| Selection.ExpandedChildren | src/components/sections/About.tsx:100-102 | children are listed only under the selected entry, and all of them there |
| Selection.AtMostOneExpanded | src/components/sections/Projects.tsx:145 | with unique ids, at most one entry is expanded |
| Selection.Connectors | src/components/sections/ProjectsSimplified.tsx:140 | a connector follows every entry except the last |
| Selection.ConnectorCount | src/components/sections/About.tsx:130 | a list of n entries draws n - 1 connectors (none when empty) |
| Selection.BadgeLabel | src/components/sections/ProjectsSimplified.tsx:130 | the badge is the parent id, a `.`, and exactly the decimal text of the 1-based position, whose digits read back as that position |
| Selection.BadgeLabelsDiffer | src/components/sections/About.tsx:120 | within one parent, different positions get different badges |
| Selection.BadgeShowsStageId | src/components/sections/Projects.tsx:168 | on numbered stages the position shown is the stage id |
| ProjectsSection.ProjectsView.constructor | src/components/sections/ProjectsSimplified.tsx:10-14 | initially nothing is loaded, loading is on, and the selection is ('all', '1', 1) |
| ProjectsSection.ProjectsView.Tags | src/components/sections/Projects.tsx:31 | the tag bar of the view starts with 'all' and offers every tag of every loaded project |
| ProjectsSection.ProjectsView.Visible | src/components/sections/Projects.tsx:32-34 | under 'all' every loaded project is listed; under another tag exactly the loaded projects carrying it |
| ProjectsSection.ProjectsView.Current | src/components/sections/Projects.tsx:36 | the current project is a loaded project with the selected id, absent exactly when none has it |
| ProjectsSection.ProjectsView.Stage | src/components/sections/Projects.tsx:37 | the current stage is a stage of the current project with the active id, absent exactly when there is no current project or no such stage |
| ProjectsSection.ProjectsView.Load | src/components/sections/Projects.tsx:19-29 | the loader stores the fetched projects when the fetch delivers, clears loading in every case, and leaves the selection alone |
| ProjectsSection.ProjectsView.SelectTag | src/components/sections/Projects.tsx:89 | a tag button of the projects view (the simplified view has none) changes only the filter; the current project and stage stay, even when the new filter hides them |
| ProjectsSection.ProjectsView.SelectProject | src/components/sections/Projects.tsx:118-121 | a project button selects it and resets the stage to 1, also when it was already selected; on well-formed data that shows its first stage |
| ProjectsSection.ProjectsView.SelectStage | src/components/sections/ProjectsSimplified.tsx:115 | a stage button changes only the active stage; on numbered stages the id-th stage becomes current |
| ProjectsSection.MountWithFixtures | src/components/sections/Projects.tsx:19-37 | mounted and loaded from the fixtures, the view lists every project and shows the first stage of project '1' |
| AboutSection.AboutView.constructor | src/components/sections/About.tsx:7-10 | initially nothing is loaded, loading is on, and the selection is ('1', 1) |
| AboutSection.AboutView.Current | src/components/sections/About.tsx:27 | the current section is a loaded section with the selected id, absent exactly when none has it |
| AboutSection.AboutView.Item | src/components/sections/About.tsx:28 | the current item is an item of the current section with the active id, absent exactly when there is no current section or no such item |
| AboutSection.AboutView.ListedItems | src/components/sections/About.tsx:100-102 | a section lists all its items when it is the selected one, and none otherwise |
| AboutSection.AboutView.Load | src/components/sections/About.tsx:15-25 | the loader stores the fetched sections when the fetch delivers, clears loading in every case, and leaves the selection alone |
| AboutSection.AboutView.SelectSection | src/components/sections/About.tsx:73-76 | a section button selects it and resets the item to 1; only that section is expanded, and on well-formed data its first item shows |
| AboutSection.AboutView.SelectItem | src/components/sections/About.tsx:105 | an item button changes only the active item; on numbered items the id-th item becomes current |
| AboutSection.MountWithFixtures | src/components/sections/About.tsx:15-28 | mounted and loaded from the fixtures, the view shows the first item of section '1' |
| Radial.MenuIds | src/components/RadialMenu.tsx:14-19 | the entries are home, projects, team and about, in that order |
| Radial.MenuIdsDistinct | src/components/RadialMenu.tsx:14-19 | the entry ids are distinct |
| Radial.IsMobileWidth | src/components/RadialMenu.tsx:33 | the menu is in mobile mode when the window is narrower than 768 pixels |
| Radial.MobileBreakpoint | src/components/RadialMenu.tsx:33 | mobile mode is a width of at most 767; 768 is desktop |
| Radial.MenuState.constructor | src/components/RadialMenu.tsx:29-30 | the menu starts in desktop mode with the panel closed |
| Radial.MenuState.CheckMobile | src/components/RadialMenu.tsx:33-34 | `checkMobile` sets the mode from the width and leaves the panel alone |
| Radial.MenuState.Toggle | src/components/RadialMenu.tsx:44 | the toggle button flips the panel |
| Radial.MenuState.CloseFromBackdrop | src/components/RadialMenu.tsx:53 | a click on the backdrop closes the panel |
| Radial.MenuState.ChooseMobileEntry | src/components/RadialMenu.tsx:76-79 | a panel entry navigates to its id, then closes the panel |
| Radial.MenuState.GoUpMobile | src/components/RadialMenu.tsx:61-64 | the panel's go-up button goes up, then closes the panel |
| Radial.MenuState.ChooseDesktopEntry | src/components/RadialMenu.tsx:119 | a desktop entry navigates to its id |
| Radial.MenuState.GoUpDesktop | src/components/RadialMenu.tsx:146 | the desktop go-up button goes up |
| Radial.AngleStep | src/components/RadialMenu.tsx:101-104 | `angleStep` is 60 degrees |
| Radial.Angle | src/components/RadialMenu.tsx:111 | entry i sits at i times 60 degrees |
| Radial.AnglesSpanHalfCircle | src/components/RadialMenu.tsx:101-111 | the first entry is at 0 degrees, the last at 180, and the angles increase by equal steps |
| Radial.Entries | src/components/RadialMenu.tsx:122 | an entry is highlighted exactly when its id is the active section |
| Radial.OneEntryHighlighted | src/components/RadialMenu.tsx:82 | at most one entry is highlighted, and exactly one when the active section is a menu id |
| Radial.Render | src/components/RadialMenu.tsx:39-170 | mobile mode shows the panel only when open, with go-up only under `showGoUp`; desktop shows every entry at its angle, and the go-up button or the hub |
| Radial.DesktopCentreExclusive | src/components/RadialMenu.tsx:144-167 | on desktop exactly one of the go-up button and the hub is rendered |
| MainLayout.RenderedSection | src/components/MainLayout.tsx:27-33 | a page renders exactly for the four menu ids, and an unknown key renders nothing |
| MainLayout.SectionsMatchMenu | src/components/MainLayout.tsx:27-33 | the `sections` record (`MainLayout.Sections`) has exactly the menu ids as keys, and different ids render different pages |
| MainLayout.ShowGoUp | src/components/MainLayout.tsx:42 | the go-up control is shown exactly when the page rendered is not the home page |
| MainLayout.Layout.constructor | src/components/MainLayout.tsx:11-12 | the page starts on home at process step 1, without the go-up control |
| MainLayout.Layout.HandleNavigate | src/components/MainLayout.tsx:15-17 | navigating sets the section, keeps the process step, and shows go-up exactly when the section is not home |
| MainLayout.Layout.HandleGoUp | src/components/MainLayout.tsx:19-21 | going up returns to home, which hides go-up and renders the home page |
| MainLayout.Layout.HandleProcessStepChange | src/components/MainLayout.tsx:23-25 | changing the process step keeps the section |
| MainLayout.Layout.Apply | src/components/MainLayout.tsx:41-43 | the menu's callbacks reach `handleNavigate` and `handleGoUp` |
| MainLayout.ChooseFromMobilePanel | src/components/RadialMenu.tsx:76-79 | choosing a panel entry shows its section, keeps the process step, closes the panel and highlights only that entry |
| MainLayout.GoUpFromMobilePanel | src/components/RadialMenu.tsx:61-64 | the panel's go-up returns to home, keeps the process step and closes the panel |

## Left out

- The sine/cosine pixel positions of the desktop entries (RadialMenu.tsx:112-114) are floating-point trigonometry. Only the angles are modelled, as exact reals: the source's `-0` start and its division 180/3 are exact in binary floating point.
- The `setTimeout` delays and promises of the `api` getters are timing plumbing. Each getter is modelled as the constant it resolves to.
- The async `useEffect` loaders are modelled as one `Load` step:
  - its `Option` parameter tells whether the fetch delivered;
  - a rejected fetch leaves the list as it was;
  - the loaders run once, on mount.
- The window `resize` listener and its removal are browser event I/O. `CheckMobile` is the listener's body.
- The following have no stateable behaviour and are left out: framer-motion transitions, `useInView` reveal animations, `cn` class composition, and the hover/focus styles.
- `window.open` is a foreign browser call. Its buttons for the stage links (Projects.tsx:294) and the repository (Projects.tsx:310) are left out; `links.demo` is never read by the view. Only the address the PDF frame's button opens is kept (`MediaUrls.MediaView.DocumentFrame.opens`).
- The avatars and project images are imported assets that the bundler resolves to addresses (mockApi.ts:2-8). Only the avatars appear in the fixtures, where the import specifiers, such as `@/assets/perfil1.png`, stand in their place; the three project-image imports are unused.
- `ProjectsSimplified.tsx` computes `allTags` and `filteredProjects` like the projects view but renders no tag bar and never calls `setSelectedTag`. Its filter therefore stays `'all'`, its list is every loaded project, and its connectors count them all. The model has no separate class for it: `ProjectsSection.ProjectsView` with `SelectTag` never called is that view.
- The corner badges "YouTube" and "PDF" on media entries (Projects.tsx:239-250) are static markup.
- `Team.tsx` and `Home.tsx` are presentation only. `Team.tsx` maps the fetched list to cards with a cosmetic tilt; `Home.tsx` is static markup.
- The `processStep`/`onProcessStepChange` props of the menu are accepted but never used, so the menu model does not take them.
- JavaScript strings are sequences of UTF-16 code units. Here a string is a sequence of characters, which is the same for every address in the fixtures. A link outside the Basic Multilingual Plane could count its length differently.
- `sections[activeSection]` on a plain object would also find inherited keys such as `constructor`. `MainLayout.RenderedSection` treats every key outside the record as absent.
- A project tag literally named `all` would appear twice in the tag bar and could not be selected as a filter, because `'all'` always means "no filter". The model reproduces this: `AllTags` does not remove it, and `FilterByTag` treats it as the "no filter" tag.
- The regex `\w`, `.` and the character classes are modelled without the `i`, `s`, `m`, `u` or `v` flags, because the patterns carry none.
- `MediaUrls.YouTubeId`: the contract states the shape of the result; the full behaviour is stated by `YouTubeIdOfMatch` and `YouTubeIdWithoutMarker`.
- `MediaUrls.DrivePreviewUrl`: the contract states the shape; the full behaviour is stated by `DrivePreviewUrlOfMatch` and `DrivePreviewUrlFallback`.
