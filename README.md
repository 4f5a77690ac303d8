# WordPress theme: content fetching and header state

This project models the three parts of the site that have behaviour. The rest is rendering and animation.

- **The content-fetch layer** (`wordpress.dfy`, module `WordPress`). `fetchWpJson` makes one GET against the WordPress REST API. It returns the parsed body on success and the caller's fallback on every failure. A thrown failure is logged once per `path:code` key, and the keys are kept in a process-wide set that never shrinks. A non-OK HTTP status is logged on every call. On top of it sit three accessors: `getAllPosts`, `getPostBySlug` and `getAllPostSlugs`. The base URL is read once when the module loads, with one trailing slash stripped.
  - `Fetch` is one call as a function of the set: it gives the returned value, the new set and the lines logged.
  - `Run` folds `Fetch` over a sequence of calls. Its set afterwards is the initial set plus the keys of the calls that threw (`ThrownKeys`). The lemmas about the log across many calls are stated on `Run`.
  - The class `WordPressClient` is the module's mutable state: the set `loggedFetchIssues`, a ghost log of console lines and a ghost list of requested URLs. Its methods are proved against `Fetch`.
- **The header store** (`header_store.dfy`, module `HeaderStore`). It has three fields and four actions. `HeaderState` is the value with the actions as functions. The class `HeaderStore` is the mutable store, and each method is proved to change its state as the matching function does.
- **The Header component** (`header.dfy`, module `Header`). It covers:
  - the pathname classifier `getActiveFromPath`;
  - the label of the mobile menu button;
  - the route-change effect (`setActiveLink`, then `closeMenu`);
  - the Escape key handler;
  - the logo click and the desktop and mobile menu-item clicks.

The network is not modelled. Each fetch receives the outcome of its single request as a value:
- `Ok(body)` is a response whose status is in the OK range and whose body parsed.
- `HttpFail(status)` is a response whose status is not OK.
- `Thrown(code)` is any exception raised by the request or by the body parse, with its `code` property if it has one. A JSON parse error has no code.

Console output is a ghost sequence of `LogEntry` values:
- `StatusFailed(path, status)` is an error line.
- `HostUnresolvable(key)` is a warning line.
- `RequestFailed(key)` is an error line.

Two facts about the code shape what the model states:
- **Non-OK statuses are not de-duplicated.** Only thrown failures go through the set, so a non-OK status is logged on every call (lib/wordpress.ts:44-47). This is what `StatusFailuresAlwaysLogged` proves.
- **No length limits on results.** The 10 and the 100 are query parameters sent to the server, and the code does not enforce them, so no length bound is stated.

## Model

| member | source | states |
|---|---|---|
| `WordPress.StripTrailingSlash` | lib/wordpress.ts:2 | the result is a prefix of the input, at most one character shorter, and shorter exactly when the input ends in `/` |
| `WordPress.StripUndoesOneSlash` | lib/wordpress.ts:2 | stripping undoes appending one slash |
| `WordPress.StripRemovesAtMostOne` | lib/wordpress.ts:2 | only one trailing slash is removed: `s + "//"` becomes `s + "/"` |
| `WordPress.ApiBase` | lib/wordpress.ts:2-7 | the module loads exactly when the variable is set and is non-empty after stripping; the base it loads with is a non-empty prefix of the variable, at most one character shorter |
| `WordPress.LoneSlashIsRefused` | lib/wordpress.ts:2-7 | a value of `/` alone strips to the empty string and stops the module from loading, like an unset variable |
| `WordPress.IssueEntry` | lib/wordpress.ts:58-64 | a new issue produces one line under its key, and it is a warning exactly when the code is `ENOTFOUND` (an error otherwise) |
| `WordPress.Fetch` | lib/wordpress.ts:38-69 | the value is the body on success and the fallback on every failure, so a failure never reaches the caller; the set only grows; success logs nothing and leaves the set alone; a non-OK status logs one error and leaves the set alone; a thrown failure adds `path:code` to the set and logs one line exactly when that key was new, a warning for `ENOTFOUND` and an error otherwise |
| `WordPress.DedupeKeyInjective` | lib/wordpress.ts:52-53 | for paths without `:`, equal keys mean the same path and the same code, with a missing code counted as `UNKNOWN` |
| `WordPress.AccessorPathsHaveNoColon` | lib/wordpress.ts:73-84 | the three accessor paths contain no `:` when the encoded slug has none, so their keys never collide |
| `WordPress.Run` | lib/wordpress.ts:38-69 | across a sequence of calls, the set afterwards is the initial set plus the `path:code` key of every call that threw, and the i-th call returns its own body or its own fallback |
| `WordPress.ThrownKeysAreTheThrownCalls` | lib/wordpress.ts:50-56 | a key is among the thrown keys exactly when some call in the sequence threw with that path and code |
| `WordPress.NewThrownKeysAreLogged` | lib/wordpress.ts:50-65 | across any sequence of calls, the keys logged are exactly the keys of the calls that threw and were not recorded before |
| `WordPress.EachNewIssueLoggedOnce` | lib/wordpress.ts:3-65 | across any sequence of calls, no de-duplicated key is logged twice, and the keys logged are exactly the keys the set gained |
| `WordPress.KnownIssueStaysQuiet` | lib/wordpress.ts:55-56 | repeating a thrown failure whose key is already in the set logs nothing and leaves the set unchanged |
| `WordPress.RepeatedFailureLoggedOnce` | lib/wordpress.ts:50-68 | one thrown failure repeated any number of times logs exactly one line if its key was new and none otherwise, and leaves the key in the set |
| `WordPress.StatusFailuresAlwaysLogged` | lib/wordpress.ts:44-47 | n non-OK responses log n status errors in order and never touch the set |
| `WordPress.FirstOrNull` | lib/wordpress.ts:79 | `posts[0] ?? null`: absent exactly when the list is empty, otherwise the first post, unmodified |
| `WordPress.SlugsOf` | lib/wordpress.ts:85 | same length and order as the posts, and element i is the slug of post i |
| `WordPress.FoundPostHasRequestedSlug` | lib/wordpress.ts:77-79 | when every post the server returns carries the requested slug, a found post has that slug and is one of the returned posts |
| `WordPress.WordPressClient.constructor` | lib/wordpress.ts:2-7 | the module starts with a non-empty base, an empty issue set and nothing logged or requested |
| `WordPress.WordPressClient.FetchWpJson` | lib/wordpress.ts:38-69 | makes exactly one request to base + path, returns what `Fetch` returns, and leaves the set and the log as `Fetch` describes |
| `WordPress.WordPressClient.GetAllPosts` | lib/wordpress.ts:72-74 | returns the fetched list unchanged, or `[]` on any failure, after one fetch of the ten-post path |
| `WordPress.WordPressClient.GetPostBySlug` | lib/wordpress.ts:77-80 | returns the first post of the list fetched for the encoded slug, or None when that list is empty or the fetch failed |
| `WordPress.WordPressClient.GetAllPostSlugs` | lib/wordpress.ts:83-86 | returns the slugs of the posts fetched from the slug-only path, in order, or `[]` on any failure |
| `HeaderStore.Initial` | components/Header/header.store.ts:14-16 | the store starts with the menu closed, not scrolled, and `/` active |
| `HeaderStore.HeaderState.ToggleMenu` | components/Header/header.store.ts:17 | negates `isMenuOpen` and keeps `isScrolled` and `activeLink` |
| `HeaderStore.HeaderState.CloseMenu` | components/Header/header.store.ts:18 | `isMenuOpen` is false afterwards, and the other fields are kept |
| `HeaderStore.HeaderState.SetScrolled` | components/Header/header.store.ts:19 | sets `isScrolled` to the value and keeps the other fields |
| `HeaderStore.HeaderState.SetActiveLink` | components/Header/header.store.ts:20 | sets `activeLink` to the href and keeps the other fields |
| `HeaderStore.ToggleTwiceRestores` | components/Header/header.store.ts:17 | toggling twice gives back the original state |
| `HeaderStore.CloseMenuIdempotent` | components/Header/header.store.ts:18 | closing twice is the same as closing once |
| `HeaderStore.CloseMenuAbsorbsToggle` | components/Header/header.store.ts:17-18 | toggling and then closing is the same as closing |
| `HeaderStore.SettersKeepLastValue` | components/Header/header.store.ts:19-20 | two `setScrolled` or two `setActiveLink` calls in a row leave only the second value |
| `HeaderStore.ActionsOnDifferentFieldsCommute` | components/Header/header.store.ts:17-20 | actions that write different fields can run in either order with the same result |
| `HeaderStore.HeaderStore.constructor` | components/Header/header.store.ts:13-16 | the created store holds the initial state |
| `HeaderStore.HeaderStore.ToggleMenu` | components/Header/header.store.ts:17 | the store's new state is the old state with the menu toggled |
| `HeaderStore.HeaderStore.CloseMenu` | components/Header/header.store.ts:18 | the store's new state is the old state with the menu closed |
| `HeaderStore.HeaderStore.SetScrolled` | components/Header/header.store.ts:19 | the store's new state is the old state with `isScrolled` set |
| `HeaderStore.HeaderStore.SetActiveLink` | components/Header/header.store.ts:20 | the store's new state is the old state with `activeLink` set |
| `Header.GetActiveFromPath` | components/Header/Header.tsx:21-29 | the result is always `/about`, `/blog` or `/`; it is `/about` exactly when the path starts with `/about`; it is `/blog` exactly when the path starts with `/blog` but not with `/about`; it is `/` exactly when the path starts with neither |
| `Header.GetActiveFromPathIdempotent` | components/Header/Header.tsx:21-29 | classifying the result again gives the same result |
| `Header.ActiveLinkIsMenuItem` | components/Header/Header.tsx:13-29 | the classification of any pathname is the href of Home, About or Blog, never the `/#portfolio` or `/#contact` anchor |
| `Header.PrefixIsNotSegmentAware` | components/Header/Header.tsx:22-26 | the test is a raw prefix test: `/aboutus` selects About, and `/blogroll` and `/blog/hello-world` select Blog |
| `Header.MobileLabel` | components/Header/Header.tsx:45 | `Close menu` exactly when the menu is open, and `Open menu` exactly when it is closed |
| `Header.Navigated` | components/Header/Header.tsx:47-50 | after a route change, the active link is the classification of the pathname, the menu is closed, and `isScrolled` is kept |
| `Header.KeyPressed` | components/Header/Header.tsx:53-57 | Escape closes the menu and keeps the other fields; any other key changes nothing |
| `Header.NavigationIdempotent` | components/Header/Header.tsx:47-50 | running the route effect twice for the same pathname gives the same state as running it once |
| `Header.NavigationDependsOnlyOnClass` | components/Header/Header.tsx:47-50 | two pathnames with the same classification lead to the same state |
| `Header.EscapeAfterNavigationIsNoOp` | components/Header/Header.tsx:47-57 | after a route change, any key, Escape included, leaves the state as it is |
| `Header.LabelAfterClosing` | components/Header/Header.tsx:45-57 | after a route change or an Escape, the button reads `Open menu` |
| `Header.NavItemClicked` | components/Header/NavMenu.tsx:76 | a desktop menu click makes the clicked href active and keeps the menu and scroll flags |
| `Header.MobileItemClicked` | components/Header/MobileMenu.tsx:116-119 | a mobile menu click makes the clicked href active, closes the menu, and keeps the scroll flag |
| `Header.LogoClicked` | components/Header/Header.tsx:115 | a logo click makes `/` active and keeps the menu and scroll flags |
| `Header.AnchorClickLeavesUnclassifiedLink` | components/Header/Header.tsx:13-29 | after a click on the Portfolio or Contact item, the active link is an anchor that no pathname classifies as |
| `Header.NavigationOverridesClicks` | components/Header/Header.tsx:47-50 | a route change after any click gives the same state as the route change alone |
| `Header.OnNavItemClick` | components/Header/Header.tsx:125 | the store ends in the state `NavItemClicked` gives for its old state and the href |
| `Header.OnMobileItemClick` | components/Header/Header.tsx:164-170 | the store ends in the state `MobileItemClicked` gives for its old state and the href |
| `Header.OnLogoClick` | components/Header/Header.tsx:115 | the store ends in the state `LogoClicked` gives for its old state |
| `Header.OnPathnameChange` | components/Header/Header.tsx:47-50 | the store ends in the state `Navigated` gives for its old state and the pathname |
| `Header.OnKeyDown` | components/Header/Header.tsx:52-61 | the store ends in the state `KeyPressed` gives for its old state and the key |

## Left out

- **The HTTP request.** `fetch`, `res.json()` and Next.js revalidation (`revalidate: 60`, lib/wordpress.ts:40-42) are not modelled. Each call takes the outcome of its one request as a parameter. The ghost `requests` list records only that exactly one request goes to base + path.
- **encodeURIComponent.** `encodeURIComponent` (lib/wordpress.ts:78) is a platform function. It is the `encodeComponent` parameter of `WordPressClient`'s constructor.
- **The startup exception.** The module-load `throw` (lib/wordpress.ts:5-7) is `ApiBase` returning None. A `WordPressClient` can only be built with a non-empty base.
- **Log message text.** Each log entry keeps its level and its key, or its path and status. The printed text is dropped, including the error object printed with other thrown failures.
- **The `ENOTFOUND` warning's text.** That warning prints only the base URL (lib/wordpress.ts:59-61). The key in `HostUnresolvable(key)` is not printed. An unresolvable host reached through two different paths gives two entries with different keys, but the console shows the same line twice. `EachNewIssueLoggedOnce` rules out a repeated key, not a repeated console line.
- **Body shape.** The body is cast to its type with `as T`, so the model assumes it has that type. If an OK response carried a body that is not an array, the real `getAllPostSlugs` would throw from `posts.map`. That case is not represented.
- **`WPPage`.** This interface (lib/wordpress.ts:31-36) is declared but never fetched by the three accessors.
- **Concurrency.** Each step is modelled as running on its own. Concurrent page generation outside this code is not modelled.
- **Rendering and animation.** The GSAP timelines, scroll triggers and JSX rendering are not modelled (components/Header/Header.tsx:63-175, header.animations.ts, NavMenu.tsx, MobileMenu.tsx and the pages under app/).
- **Menu clicks and active anchors.** The logo and menu-item clicks are modelled. A click on Portfolio or Contact stores an anchor href (`/#portfolio`, `/#contact`) as the active link, so the active link is not always a classified pathname. The next route change replaces it.
- **Other Header handlers.** The toggle button (components/Header/Header.tsx:130) calls `toggleMenu` only. The mobile menu's backdrop and close button (components/Header/MobileMenu.tsx:86, 95) call `closeMenu` only. These are the store actions `HeaderStore.ToggleMenu` and `HeaderStore.CloseMenu`, and they are not modelled again as separate handlers.
