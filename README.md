# Portfolio data layer and session gate, in Dafny

This project models the logic core of a personal portfolio web application. The application has a public project grid and an admin area. The admin area manages projects and a profile through either a browser-local mock store or a hosted row-and-object store. The model covers:

- the **mock data layer** (`lib/mock-data.ts`): a key-value store with a project list, a profile record and an authentication marker, and CRUD operations over them. It is the class `MockData.MockStore`, whose fields stand for the three storage keys. Its methods state the new contents of storage in terms of the old.
- the **session gate** (`middleware.ts`): a pure decision from a path and the request's cookies to "redirect to /login" or "pass". It is paired with the route matcher the gate is registered under.
- the **API route handlers** (`app/api/projects/route.ts`, `app/api/profile/route.ts`). They are written as step-by-step methods against two classes that stand for the hosted services. `RemoteStore.ObjectStore` is a map from path to file. `RemoteStore.RowStore` holds the `projects` and `profile` tables as maps keyed by id.
- the **login handler** (`app/login/page.tsx`): the hosted sign-in is tried first, then the mock, and on success a cookie is written. The model also states how the gate reads that cookie back.
- two **small pure rules**: the card layout pattern of the project grid (`components/project-grid.tsx`), and when the navigation bar hides itself (`components/navigation.tsx`).

Clock readings, random suffixes, database-assigned ids and whether a call to a hosted service fails are parameters of the methods.

Behaviours of the code worth knowing, all of which the model follows:

- `getAll` never seeds starter projects when storage is empty. It returns the empty list.
- `POST /api/projects` requires a non-empty description, not only a title.
- The profile route chooses mock mode from the service address alone. The access key is not consulted.
- The hosted profile update does not stamp `updated_at`.
- A failed login always shows the mock's message, never the hosted service's.

## Model

| member | source | states |
|---|---|---|
| `MockData.SignInResponse` | lib/mock-data.ts:39-54 | sign-in succeeds iff the email and password are exactly `admin@portfolio.com` / `admin123`; success carries token `mock-token`, failure the error `Invalid credentials` and no session |
| `MockData.MockStore.SignIn` | lib/mock-data.ts:46-54 | returns that response; on success in a browser the marker becomes `authenticated`, on failure storage is unchanged |
| `MockData.MockStore.SignOut` | lib/mock-data.ts:56-61 | returns success; in a browser the marker is removed; afterwards the store is not authenticated |
| `MockData.MockStore.IsAuthenticated` | lib/mock-data.ts:63-66 | true iff storage exists and the marker is exactly `authenticated` |
| `MockData.MockStore.GetAll` | lib/mock-data.ts:71-75 | the stored list in a browser, the empty list outside one; nothing is seeded |
| `MockData.MockProjectId` | lib/mock-data.ts:80 | the id starts with `project_` and is nine characters longer than the clock reading and suffix together |
| `MockData.MockProjectIdInjective` | lib/mock-data.ts:80 | for clock readings without `_`, equal ids come only from equal readings and equal suffixes |
| `MockData.NewProject` | lib/mock-data.ts:77-83 | the created record carries the input's title, description and image URL, the generated id and time, and display order 0 |
| `MockData.MockStore.Create` | lib/mock-data.ts:77-92 | returns that record; in a browser the list becomes the record followed by the old list (one longer), outside one nothing is stored; a fresh id keeps ids unique |
| `MockData.MockStore.Delete` | lib/mock-data.ts:94-100 | true iff storage exists; the list becomes the old one without that id (no project keeps it), and unique ids stay unique |
| `ProjectList.Without` | lib/mock-data.ts:97 | the filtered list is no longer, holds only projects of the input without the id, and keeps every project with another id |
| `ProjectList.WithoutConcat` | lib/mock-data.ts:97 | filtering distributes over concatenation, so the survivors keep their relative order |
| `ProjectList.WithoutAbsent` | lib/mock-data.ts:97 | deleting an id no project carries leaves the list unchanged |
| `ProjectList.WithoutIdempotent` | lib/mock-data.ts:94-100 | after one delete the id is gone, so a second delete changes nothing |
| `ProjectList.WithoutLength` | lib/mock-data.ts:97 | the list keeps its length exactly when the id was absent |
| `ProjectList.WithoutUnique` | lib/mock-data.ts:97 | filtering preserves id uniqueness |
| `ProjectList.FindIndex` | lib/mock-data.ts:105-106 | the index found is the first project with the id; none is found iff no project has it |
| `MockData.ApplyProjectPatch` | lib/mock-data.ts:108 | every field the patch supplies replaces the old value, every other field keeps it |
| `MockData.ProjectPatchIdempotent` | lib/mock-data.ts:108 | applying a patch twice equals applying it once |
| `MockData.MockStore.Update` | lib/mock-data.ts:102-111 | with no storage or no matching id: null and no change; otherwise only the first matching index is replaced by the patched record, which is returned; length is kept; uniqueness is kept when the patch does not take another project's id |
| `MockData.DefaultProfile` | lib/mock-data.ts:30-36 | the default profile has id `1`, the fixed bio, no avatar or CV, and the module-load time |
| `MockData.MockStore.GetProfile` | lib/mock-data.ts:116-120 | the stored profile in a browser when there is one, the default profile otherwise |
| `MockData.MergeProfile` | lib/mock-data.ts:122-128 | the merged profile takes each supplied field from the patch and keeps the rest; `updated_at` is the current time even when the patch supplies one |
| `MockData.MockStore.UpdateProfile` | lib/mock-data.ts:122-135 | returns the current profile merged with the patch; in a browser it is stored and read back exactly by the next get |
| `MockData.InitializedProfile` | lib/mock-data.ts:137-143 | the default is written only into an empty slot of a browser store; a stored profile is kept |
| `MockData.InitializeIdempotent` | lib/mock-data.ts:137-143 | initializing twice equals initializing once |
| `MockData.MockStore.Initialize` | lib/mock-data.ts:137-143 | the stored profile becomes the initialized one |
| `MockData.MockStore.Load` | lib/mock-data.ts:156-159 | loading the module keeps stored data and runs initialize in a browser |
| `Middleware.TokenOf` | middleware.ts:9 | the token is present iff the request has an `sb-access-token` cookie, and it is that cookie's value; what the gate makes of it is stated by `Middleware.NoTokenRedirects` and `Middleware.TokenValueIgnored` |
| `Middleware.Gate` | middleware.ts:4-20 | redirect (always to `/login`) iff the path starts with `/admin` and the `sb-access-token` cookie is absent or empty |
| `Middleware.OutsidePrefixPasses` | middleware.ts:8-19 | a path outside the prefix always passes |
| `Middleware.NoTokenRedirects` | middleware.ts:8-14 | under the prefix a missing or empty token is redirected to `/login` |
| `Middleware.TokenValueIgnored` | middleware.ts:9-19 | any two non-empty tokens get the same decision, pass: the token is never inspected |
| `Middleware.Matched` | middleware.ts:22-24 | a matched path starts with `/admin`, and unless it is `/admin` itself the next character is `/`; conversely `/admin` and every `/admin/<rest>` are matched, by `Middleware.AdminPagesRedirect` |
| `Middleware.Handle` | middleware.ts:22-24 | with the matcher `/admin/:path*` in front, a request is redirected iff it is matched and has no token; `Middleware.AdminPagesRedirect` applies this to `/admin` and every page below it |
| `Middleware.AdminPagesRedirect` | middleware.ts:8-24 | a request for `/admin` or any `/admin/<rest>` without a non-empty token is redirected to `/login` |
| `Middleware.MatchedIsUnderPrefix` | middleware.ts:8-24 | every matched path is under the prefix the function tests |
| `Middleware.AdministratorPrefixOnly` | middleware.ts:8-24 | `/administrator` is gated by the prefix test but is never matched, so without a token it still passes |
| `ProjectsRoute.Complete` | app/api/projects/route.ts:11 | a form is complete iff it has a file and a present, non-empty title and description; `ProjectsRoute.Post` answers 400 before any change exactly when it is not |
| `ProjectsRoute.Post` | app/api/projects/route.ts:4-71 | a missing file or empty title or description gives 400 `Missing required fields` before any change; the image goes to `projects/<stamp>-<suffix>.<ext>` without overwrite; a failed upload gives 500 `Failed to upload image` and no row; the row gets the public URL and order 0; a failed insert gives 500 `Failed to create project` and keeps the uploaded object |
| `StoragePaths.Extension` | app/api/projects/route.ts:19 | the extension is the suffix of the name after its last dot, without a dot, and it is the whole name exactly when the name has no dot |
| `StoragePaths.ProjectImageName` | app/api/projects/route.ts:19-20 | the generated file name keeps the upload's extension, and it has no `/` when the clock reading, suffix and upload name have none; `StoragePaths.ProjectImagePathInjective` shows that the reading and suffix pick the name |
| `StoragePaths.ProjectImagePath` | app/api/projects/route.ts:19-21 | the image path lies under `projects/` and keeps the upload's extension; by `StoragePaths.ProjectImagePathInjective` different readings or suffixes give different paths |
| `StoragePaths.ProjectImagePathInjective` | app/api/projects/route.ts:19-28 | for a clock reading without `-` and a random suffix without `.`, equal image paths come only from equal readings and equal suffixes, so a later upload without overwrite does not meet an earlier image |
| `StoragePaths.AvatarPath` | app/api/profile/route.ts:43-45 | the avatar path starts with `profile/avatar-` and keeps the upload's extension; by `StoragePaths.AvatarPathInjective` it determines the clock reading |
| `StoragePaths.AvatarPathInjective` | app/api/profile/route.ts:43-45 | for clock readings without `.`, equal avatar paths come only from equal readings |
| `StoragePaths.CvPath` | app/api/profile/route.ts:67-68 | the CV path starts with `profile/cv-` and its extension is `pdf` whatever was uploaded; by `StoragePaths.CvPathInjective` it determines the clock reading |
| `StoragePaths.CvPathInjective` | app/api/profile/route.ts:67-68 | equal CV paths come only from equal clock readings |
| `StoragePaths.PathFromUrl` | app/api/projects/route.ts:108 | the path read from a URL is a suffix of it, and it is the whole URL when the URL has no `/`; `StoragePaths.LastTwoSegments` and `StoragePaths.TwoSegmentsKept` state that it is the last two segments |
| `StoragePaths.LastTwoSegments` | app/api/projects/route.ts:108 | for any text `a` and slash-free `dir` and `file`, the path read from `a/dir/file` is `dir/file` |
| `StoragePaths.TwoSegmentsKept` | app/api/projects/route.ts:108 | a URL made of exactly two slash-free segments `dir/file` is read back whole |
| `StoragePaths.ExtensionExamples` | app/api/projects/route.ts:19 | `photo.final.png` gives `png`, `photo` gives `photo`, the empty name gives the empty text |
| `Strings.Split` | app/api/projects/route.ts:108 | a split has at least one piece and no piece holds the separator; with `Strings.JoinSplit` this fixes the result completely |
| `Strings.JoinSplit` | app/api/projects/route.ts:108 | joining the pieces of a split with the same separator gives back the original text |
| `ProjectsRoute.ImageToRemove` | app/api/projects/route.ts:107-108 | an object is removed iff the looked-up image URL is non-empty, at the URL's last two segments joined by `/` |
| `ProjectsRoute.Delete` | app/api/projects/route.ts:73-120 | a missing or empty id gives 400 `Project ID is required`; a failed row delete gives 500 `Failed to delete project`; in both cases nothing changes; otherwise the row is deleted, the image path derived from the looked-up URL is removed unless removal fails, and the answer is success either way |
| `StoragePaths.PathFromPublicUrl` | app/api/projects/route.ts:39-41 | for a slash-free directory and file name, the last two segments of the public URL of `dir/file` are `dir/file`; it is `StoragePaths.LastTwoSegments` for the storage prefix |
| `StoragePaths.ProjectImageRoundTrip` | app/api/projects/route.ts:19-21 | the path delete derives from a project image's public URL is the path it was uploaded to |
| `ProjectsRoute.CreateThenDelete` | app/api/projects/route.ts:4-112 | creating then deleting a project with no failures leaves both stores exactly as they were |
| `ProfileRoute.Put` | app/api/profile/route.ts:4-112 | an empty or missing bio gives 400 `Bio is required` before any change; without a service address the mock store merges `{bio}` plus the supplied files' data URLs; otherwise avatar and CV are uploaded with overwrite to `profile/avatar-<stamp>.<ext>` and `profile/cv-<stamp>.pdf`, a failed upload drops its URL, and the single row gets bio and the new URLs or the answer is 500 `Failed to update profile` |
| `ProfileRoute.UseMock` | app/api/profile/route.ts:19-20 | mock mode is chosen iff the service address is missing or empty; `ProfileRoute.Put` states what each mode does |
| `ProfileRoute.MockPatch` | app/api/profile/route.ts:25-33 | the mock update holds the bio, and an avatar or CV URL exactly when that file was supplied; it never sets id or `updated_at` |
| `ProfileRoute.MockUpdateKeepsOtherFields` | app/api/profile/route.ts:22-36 | in mock mode the profile keeps its id and its avatar and CV unless new files came, gets the new bio and the current time |
| `RemoteStore.ApplyProfileUpdate` | app/api/profile/route.ts:89-94 | the hosted row gets the bio and each supplied URL; id and `updated_at` are kept |
| `ProfileRoute.BioOnlyUpdate` | app/api/profile/route.ts:39-94 | with no upload that succeeded only the bio changes |
| `ProfileRoute.GetProfileId` | app/api/profile/route.ts:115-118 | an id is found iff the lookup succeeds on a table of exactly one row, and it is that row's id, which is also the row's `id` column |
| `ProjectGrid.GetVariant` | components/project-grid.tsx:27-30 | the variant of card i is entry i mod 6 of minimal, overlay, magazine, overlay, minimal, magazine; its properties are `ProjectGrid.VariantPeriodic` and `ProjectGrid.NeighboursDiffer` |
| `ProjectGrid.VariantPeriodic` | components/project-grid.tsx:27-30 | the variant sequence repeats with period 6 |
| `ProjectGrid.NeighboursDiffer` | components/project-grid.tsx:27-30 | neighbouring cards never share a variant, across the wrap of the pattern too |
| `ProjectGrid.CardsFrom` | components/project-grid.tsx:35-43 | one card per project, in input order, card i with the variant for its index |
| `ProjectGrid.Render` | components/project-grid.tsx:18-43 | an empty list renders only the empty-state message; a non-empty one exactly one card per project in order, card i with `GetVariant(i)` |
| `ProjectGrid.RenderPrefix` | components/project-grid.tsx:35-43 | the cards of a prefix of the list are a prefix of the cards of the whole list |
| `Navigation.Hidden` | components/navigation.tsx:10 | a missing path name never hides the bar; a path starting with `/admin` always hides it; any other hidden path is exactly `/login` |
| `Navigation.Render` | components/navigation.tsx:10-50 | the bar is absent iff the path is hidden; otherwise it shows the `Portfolio` brand linking to `/` and the source's three buttons, each scrolling to a home-page section, but two of them to the same one |
| `Navigation.AdministratorHidden` | components/navigation.tsx:10 | `/admin`, `/admin/projects` and `/administrator` hide the bar |
| `Navigation.LoginExactOnly` | components/navigation.tsx:10 | `/login` hides the bar, `/login/x` shows it |
| `Navigation.NoPathnameShows` | components/navigation.tsx:10 | a missing path name and `/` show the bar |
| `Navigation.AsWrittenContactMissesSection` | components/navigation.tsx:35-46 | as written, About and Contact both scroll to `about` and no button reaches `contact` |
| `Navigation.ItemsReachDistinctSections` | components/navigation.tsx:29-46 | the corrected buttons reach the three sections, one each |
| `LoginPage.LoginOutcome` | app/login/page.tsx:20-51 | a hosted session wins; otherwise the outcome is the mock sign-in: success with `mock-token` iff the credentials match; a failure always shows `Invalid credentials` |
| `LoginPage.LoginForm.HandleLogin` | app/login/page.tsx:15-55 | loading is set and the error cleared first; a hosted session writes its cookie and goes to `/admin` without asking the mock; otherwise the mock decides, writing the mock cookie or setting the error with no cookie or navigation; loading is off on every exit |
| `LoginPage.SessionCookie` | app/login/page.tsx:30 | the cookie assignment, written after both the hosted and the mock login (line 44 writes the same cookie), is `sb-access-token=<token>;` followed by the attributes ` path=/; max-age=3600` |
| `LoginPage.ApplyCookieStores` | app/login/page.tsx:30 | a `name=value; attributes` assignment stores the value under the name |
| `LoginPage.SessionCookieStoresToken` | app/login/page.tsx:30 | the session cookie stores exactly the token under `sb-access-token` |
| `LoginPage.SignedInPassesGate` | app/login/page.tsx:28-46 | after a login with a non-empty token every path passes the gate |
| `LoginPage.MockLoginPassesGate` | app/login/page.tsx:43-46 | after the mock login every path passes the gate |
| `LoginPage.LogoutCookieRedirects` | app/admin/layout.tsx:19 | the logout cookie leaves no non-empty token (a browser drops the cookie; the model keeps it with an empty value), so `/admin` is redirected again |

## Left out

- Rendering, styling, animation and browser observers of every component. These are presentation.
- The hosted service's client library. Its stores are the two classes above. Their upload, insert, delete, select and update behave as their contracts say, which is an assumption about the service. The public URL layout `<base>/storage/v1/object/public/portfolio-assets/<path>` is assumed too, with the path copied into the URL unencoded. If the library percent-encodes the path, an upload name whose extension holds a space or a non-ASCII letter breaks `StoragePaths.ProjectImageRoundTrip` and `ProjectsRoute.CreateThenDelete`, and the delete leaves the image behind.
- `isSupabaseConfigured` in `lib/supabase/client.ts`. No call site in the core uses it. The profile route checks the address alone, as `ProfileRoute.UseMock` does.
- The remote ordering of project lists. It is a backend query, not visible code.
- `Date.now()`, `Math.random()` and ISO timestamps. They become parameters, and the database-assigned id is a fresh-id precondition.
- `fileToBase64`, which relies on the FileReader API. A file's data URL is a field of `Types.FormFile`.
- JSON serialisation of the stored values. The model assumes it round-trips.
- An absent storage key and a stored empty list. Every operation reads them the same, so both are the empty sequence.
- The API route runs on the server. There `isBrowser` is false, so the mock branch of `PUT /api/profile` persists nothing. The model keeps the store a parameter and states both cases. The model also assumes a FileReader exists there. Without one, `fileToBase64` (lib/mock-data.ts:147-153) rejects, and the outer `catch` answers 500 `Internal server error` (app/api/profile/route.ts:105-110). The 200 answer with data URLs that `ProfileRoute.Put` gives in mock mode holds only if a FileReader is available.
- `MockData.ApplyProjectPatch`: does not model a patch key that is present with the value `undefined`. A JavaScript spread would copy that value in.
- `LoginPage.ApplyCookie`: does not model cookie attributes, expiry or whitespace trimming. It keeps only name and value.
- The outer `catch` of the route handlers is modelled for an unreadable form body only. The service calls report errors as values.
- The form components under `components/admin/`, the project list's confirm-and-fetch, and the logout handler in `app/admin/layout.tsx`. These are UI and network glue. Only the logout cookie's effect on the gate is stated. The logout handler waits for `supabase.auth.signOut()` before it clears the cookie (app/admin/layout.tsx:18-19), so a sign-out that throws leaves the session cookie in place. That path is not modelled.
- Cross-tab and concurrent read-modify-write races on local storage. This is concurrency.

## Findings

| source | as written | input that shows it | evidently intended | confidence | as-written member | corrected member |
|---|---|---|---|---|---|---|
| components/navigation.tsx:41-46 | the Contact button calls `scrollToSection('about')` | clicking Contact | scroll to the section with id `contact` (components/contact-section.tsx:10) | medium, not executed | `Navigation.AsWrittenContactMissesSection` | `Navigation.ItemsReachDistinctSections` |
