# Portfolio site: a Dafny model of its admin frontend and Go backend

The portfolio has two halves. A React single-page site shows a CV viewer, floating
page navigation and a blog. Its admin dashboard edits blog posts, projects, skills,
social links and work experience. A Go backend stores those records, validates blog
content, signs an administrator in with rate limiting and refresh tokens, uploads
images to Cloudinary and reads its configuration from the environment.

This project models the core of both halves and proves what they promise.

- The frontend's state machines are Dafny classes. These are:
  - the five CRUD stores;
  - the session and toast stores;
  - the HTTP client's refresh-and-retry logic;
  - the editors and the list managers;
  - the CV pager and the navigation menu.
- Their data transformations are functions, with lemmas about them. These are:
  - search filters and the experience sort;
  - block edits, slug normalisation and the Cloudinary URL rewrite;
  - the blog SEO metadata.
- The backend services are classes over abstract repositories: blogs, projects and
  authentication.
- The backend's pure helpers are functions and methods:
  - pagination;
  - the block-data validation and the slug grammar;
  - environment defaults, the hand-written CSV parser and the file-extension checks.
- Each loop in the source is a `while` loop proved against a specification function:
  - the CSV parser;
  - `filepath.Ext` and the allow-list scan;
  - the SEO block scans;
  - the HTTP client's queue processing;
  - the backend's block-validation loop.

The model keeps several behaviours of the code as written, and proves them:

- When a 401 arrives and no refresh token is stored, the HTTP client never clears
  its "refreshing" flag. Every later 401 then waits forever
  (`ApiClient.StuckWithoutRefreshToken`).
- A toast's three-second timer is never cancelled. A second toast shown within that
  time is therefore hidden early (`ToastStore.SecondToastHiddenEarly`).
- The social-link platform selector writes twice from the same snapshot. A platform
  that has an icon template loads the icon, but the platform choice is lost
  (`SocialsManager.PlatformSticksOnlyWithoutTemplate`).
- The slug field's normalisation does not establish the backend's slug grammar
  (`Slug.NormalizeDoesNotValidate`).
- The refresh-token lookup already filters out expired rows, so the service's
  "token expired" error is possible only in the instant between two readings of the
  clock (`AuthService.Service.RefreshToken`).

## Model

| member | source | states |
|---|---|---|
| ResourceStore.Thrown | Frontend/src/store/useBlogstore.ts:34-42 | the rethrown value is the call's own error, or an `Error` carrying the envelope's message, or the action's fallback text when that message is absent or empty |
| ResourceStore.FailureText | Frontend/src/store/useBlogstore.ts:39-41 | the recorded error text is `getErrorMessage` of the call's error, else the server message, else the fallback |
| ResourceStore.ListUrl | Frontend/src/store/useProjectStore.ts:31 | the filter is added as a query parameter exactly when it is given and non-empty |
| ResourceStore.Replaced | Frontend/src/store/useBlogstore.ts:125 | same length; every entry with the updated id becomes the new record, all others are unchanged |
| ResourceStore.Removed | Frontend/src/store/useBlogstore.ts:149 | the result holds only entries of the list without the id, and keeps every such entry |
| ResourceStore.ReplacedAbsent | Frontend/src/store/useBlogstore.ts:125 | an update whose id is not listed leaves the list unchanged |
| ResourceStore.CreateThenDelete | Frontend/src/store/useBlogstore.ts:100 | deleting a freshly created record (with a new id) restores the list from before the create |
| ResourceStore.DeleteTwice | Frontend/src/store/useBlogstore.ts:149 | deleting an id is idempotent |
| ResourceStore.UpdatedCurrent | Frontend/src/store/useBlogstore.ts:126 | the viewed record is replaced exactly when its id matches; an empty view stays empty |
| ResourceStore.DeletedCurrent | Frontend/src/store/useBlogstore.ts:150 | the viewed record is cleared exactly when it matches the deleted id |
| ResourceStore.Store.constructor | Frontend/src/store/useBlogstore.ts:22-26 | empty list, nothing viewed, not loading, no error |
| ResourceStore.Store.Begin | Frontend/src/store/useBlogstore.ts:29 | every action starts loading and clears the error, and keeps the data |
| ResourceStore.Store.Fail | Frontend/src/store/useBlogstore.ts:39-43 | a failure stops loading, records the failure text and keeps the list and the viewed record |
| ResourceStore.Store.ListDone | Frontend/src/store/useBlogstore.ts:28-44 | a delivered list replaces the old one; otherwise the list stays and the error is recorded and rethrown |
| ResourceStore.Store.OneDone | Frontend/src/store/useBlogstore.ts:46-62 | a delivered record becomes the viewed one; the list is never touched |
| ResourceStore.Store.BySlugDone | Frontend/src/store/useBlogstore.ts:64-88 | the first post in the fetched list with the slug becomes the viewed one; with no match the action fails with "Blog not found"; the fetched list is not stored |
| ResourceStore.Store.CreatedDone | Frontend/src/store/useBlogstore.ts:90-113 | a created record goes in front of the list and is returned; failures leave the list |
| ResourceStore.Store.UpdatedDone | Frontend/src/store/useBlogstore.ts:115-139 | the list and the viewed record are replaced by id; failures leave both |
| ResourceStore.Store.DeletedDone | Frontend/src/store/useBlogstore.ts:141-161 | success depends only on the `success` flag; the id leaves the list and the view |
| ResourceStore.Store.ClearError | Frontend/src/store/useBlogstore.ts:163 | only the error is cleared |
| ResourceStore.Store.ClearCurrent | Frontend/src/store/useBlogstore.ts:165 | only the viewed record is cleared |
| Stores.NewBlogStore | Frontend/src/store/useBlogstore.ts:22-26 | the blog store is keyed by post id, with "blog"/"blogs" in its messages |
| Stores.NewProjectStore | Frontend/src/store/useProjectStore.ts:21-25 | the project store is keyed by numeric id |
| Stores.NewSkillStore | Frontend/src/store/useSkillStore.ts:21-25 | the skill store is keyed by skill id |
| Stores.NewSocialStore | Frontend/src/store/useSocialStore.ts:21-25 | the social store is keyed by social id |
| Stores.NewExperienceStore | Frontend/src/store/useExperienceStore.ts:21-25 | the experience store is keyed by experience id |
| Stores.ProjectsUrl | Frontend/src/store/useProjectStore.ts:31 | a non-empty category goes into the query string as `?category=` followed by the category itself; an absent or empty one gives the bare path |
| Stores.BlogsUrl | Frontend/src/store/useBlogstore.ts:32 | the blog list is fetched from "/api/blogs", with no filter |
| Stores.ExperiencesUrl | Frontend/src/store/useExperienceStore.ts:31 | the experience list is fetched from "/api/experiences", with no filter |
| Stores.SkillsUrl | Frontend/src/store/useSkillStore.ts:31 | a non-empty category gives `/api/skills?category=` followed by it; an absent or empty one lists every skill |
| Stores.SocialsUrl | Frontend/src/store/useSocialStore.ts:31 | a non-empty platform gives `/api/socials?platform=` followed by it; an absent or empty one lists every link |
| Stores.ProjectsUrlInjective | Frontend/src/store/useProjectStore.ts:31 | two filters that give the same URL are both absent or empty, or are the same category |
| Stores.ProjectLifecycle | Frontend/src/store/useProjectStore.ts:64-135 | create, update and delete of one project: alone in front, replaced in the list and the view, then gone from both |
| Stores.FailedUpdateKeepsList | Frontend/src/store/useSkillStore.ts:89-113 | a rejected update keeps the fetched list, records the server message and returns the error |
| Stores.FirstSlugMatch | Frontend/src/store/useBlogstore.ts:70-76 | with two posts sharing a slug, the earlier one is shown and no list is stored |
| AuthStore.Session.constructor | Frontend/src/store/useAuthStore.ts:23-27 | no user, no tokens, not loading, no error |
| AuthStore.Session.Rehydrate | Frontend/src/store/useAuthStore.ts:115-121 | a stored user and tokens are restored over the initial state; with nothing stored the state stays; loading, error and the token keys are kept |
| AuthStore.Session.Persist | Frontend/src/store/useAuthStore.ts:117-121 | only the user and the two tokens are persisted |
| AuthStore.Session.LoginBegin | Frontend/src/store/useAuthStore.ts:30 | login starts loading and clears the error |
| AuthStore.Session.LoginDone | Frontend/src/store/useAuthStore.ts:33-56 | success stores the user and both tokens in the store and in browser storage; failure keeps the session, records the message (fallback "Login failed") and rethrows |
| AuthStore.Session.LogoutStart | Frontend/src/store/useAuthStore.ts:60-65 | the server is asked to revoke exactly the held refresh token, and only when one is held |
| AuthStore.Session.LogoutFinish | Frontend/src/store/useAuthStore.ts:68-80 | whatever the server answers, the session and the three storage keys are cleared |
| AuthStore.Session.RefreshWithoutToken | Frontend/src/store/useAuthStore.ts:85-89 | without a refresh token the call throws "No refresh token available" |
| AuthStore.Session.RefreshDone | Frontend/src/store/useAuthStore.ts:91-110 | success replaces only the access token; failure throws "Token refresh failed" or the call's own error, and starts a logout that is not awaited |
| AuthStore.Session.ClearError | Frontend/src/store/useAuthStore.ts:113 | only the error is cleared |
| AuthStore.LoginThenLogout | Frontend/src/store/useAuthStore.ts:29-82 | signing in persists the login data; signing out revokes that refresh token and leaves nothing persisted or stored |
| AuthStore.ReloadKeepsSession | Frontend/src/store/useAuthStore.ts:20-57 | after signing in and reloading the page, the rehydrated store holds the same user and both tokens |
| ToastStore.Toast.constructor | Frontend/src/store/useToastStore.ts:12-14 | empty, closed toast |
| ToastStore.Toast.Show | Frontend/src/store/useToastStore.ts:15-18 | shows the message with its kind ("info" by default) and arms one more hide timer |
| ToastStore.Toast.Hide | Frontend/src/store/useToastStore.ts:19 | closes the toast and keeps its text |
| ToastStore.Toast.TimerFires | Frontend/src/store/useToastStore.ts:17 | a timer closes whatever toast is open |
| ToastStore.SecondToastHiddenEarly | Frontend/src/store/useToastStore.ts:15-18 | the first toast's timer closes a second toast shown before it fires |
| ApiClient.GetErrorMessage | Frontend/src/utils/api.ts:141-152 | the response's `error`, else its `message`, else the transport message, else the fixed texts; empty strings are skipped |
| ApiClient.ServerErrorWins | Frontend/src/utils/api.ts:144 | a non-empty server `error` always wins |
| ApiClient.EmptyErrorSkipped | Frontend/src/utils/api.ts:144 | an empty `error` falls through to the message |
| ApiClient.WithBearer | Frontend/src/utils/api.ts:40 | the Authorization header becomes `Bearer <token>` and nothing else changes |
| ApiClient.Intercept | Frontend/src/utils/api.ts:35-48 | the header is set exactly when a non-empty access token is stored |
| ApiClient.InterceptCarriesToken | Frontend/src/utils/api.ts:37-41 | the header sent carries the stored token itself |
| ApiClient.InterceptWithoutToken | Frontend/src/utils/api.ts:39 | without a stored token the request is passed on unchanged |
| ApiClient.Settle | Frontend/src/utils/api.ts:22-32 | one settlement per waiter, in queue order |
| ApiClient.SettleInOrder | Frontend/src/utils/api.ts:22-32 | the k-th waiter is resolved with its own request and the token, or rejected with the error |
| ApiClient.Client.constructor | Frontend/src/utils/api.ts:16-20 | not refreshing, empty queue |
| ApiClient.Client.OnError | Frontend/src/utils/api.ts:51-89 | non-401 or retried requests pass on; during a refresh the request is queued; otherwise it is marked and either a refresh starts or, with no refresh token, storage is cleared and the flag stays set |
| ApiClient.Client.ProcessQueue | Frontend/src/utils/api.ts:22-32 | every waiter is settled in order and the queue is emptied |
| ApiClient.Client.RefreshFinished | Frontend/src/utils/api.ts:91-131 | a delivered token is stored, resumes the waiters and retries the original request once; anything else rejects the waiters, clears the session and redirects to the login page |
| ApiClient.TwoUnauthorized | Frontend/src/utils/api.ts:59-116 | two concurrent 401s start one refresh; the second request waits and is retried with the new token |
| ApiClient.StuckWithoutRefreshToken | Frontend/src/utils/api.ts:77-89 | with no refresh token the flag is never cleared, and a later 401 waits in the queue |
| ApiClient.RetriedIsRejected | Frontend/src/utils/api.ts:59 | a retried request that fails with 401 again is passed on, without a second refresh |
| AdminPage.SlotOf | Frontend/src/pages/Admin.tsx:45 | the index of the first record with the id, or -1 when none has it |
| AdminPage.Upsert | Frontend/src/pages/Admin.tsx:44-56 | an existing id is overwritten in place; a new one is appended at the end |
| AdminPage.UpsertIdempotent | Frontend/src/pages/Admin.tsx:44-56 | saving the same record twice equals saving it once |
| AdminPage.SaveNewThenDelete | Frontend/src/pages/Admin.tsx:44-61 | saving a record with a new id and deleting that id restores the list |
| AdminPage.Collection.constructor | Frontend/src/pages/Admin.tsx:24-28 | a list starts from its initial records |
| AdminPage.Collection.Save | Frontend/src/pages/Admin.tsx:64-74 | the list becomes the upsert of the record |
| AdminPage.Collection.Delete | Frontend/src/pages/Admin.tsx:76-79 | the list loses every record with the id and keeps the order of the rest |
| AdminPage.Page.constructor | Frontend/src/pages/Admin.tsx:21-28 | blogs start from the bundled sample posts, the other lists empty, signed out |
| AdminPage.Page.HandleLogin | Frontend/src/pages/Admin.tsx:31-36 | any credentials sign in |
| AdminPage.Page.HandleLogout | Frontend/src/pages/Admin.tsx:38-41 | signs out |
| AdminPage.EditProjectInPlace | Frontend/src/pages/Admin.tsx:64-74 | editing a listed project replaces it in place and keeps the order |
| AdminManager.Manager.constructor | Frontend/src/components/PageComponents/Admin/BlogsManager.tsx:13-15 | the list view starts with no editor open |
| AdminManager.Manager.HandleEdit | Frontend/src/components/PageComponents/Admin/BlogsManager.tsx:17-20 | opens the editor on that record |
| AdminManager.Manager.HandleCreate | Frontend/src/components/PageComponents/Admin/BlogsManager.tsx:22-25 | opens an empty editor |
| AdminManager.Manager.HandleSave | Frontend/src/components/PageComponents/Admin/BlogsManager.tsx:27-31 | forwards the record unchanged and closes the editor |
| AdminManager.Manager.HandleCancel | Frontend/src/components/PageComponents/Admin/BlogsManager.tsx:33-36 | closes the editor and forwards nothing |
| AdminManager.Manager.HandleDelete | Frontend/src/components/PageComponents/Admin/BlogsManager.tsx:38-42 | the id is forwarded exactly when the dialog is confirmed |
| AdminManager.EmptyQueryMentioned | Frontend/src/components/PageComponents/Admin/BlogsManager.tsx:44-48 | the empty search matches every field |
| AdminManager.Mentions | Frontend/src/components/PageComponents/Admin/BlogsManager.tsx:46-47 | the lower-cased field contains the lower-cased query; EmptyQueryMentioned and MentionsIgnoresQueryCase state its behaviour |
| AdminManager.MentionsIgnoresQueryCase | Frontend/src/components/PageComponents/Admin/BlogsManager.tsx:47 | the search ignores the case of the query |
| AdminManager.FilterExact | Frontend/src/components/PageComponents/Admin/BlogsManager.tsx:44-48 | `filter` keeps exactly the listed elements that satisfy the test |
| BlogsManager.FilteredBlogsExact | Frontend/src/components/PageComponents/Admin/BlogsManager.tsx:44-48 | a post is listed exactly when its title or excerpt contains the query, ignoring case |
| BlogsManager.FilteredBlogsAppend | Frontend/src/components/PageComponents/Admin/BlogsManager.tsx:44-48 | the search keeps list order |
| BlogsManager.EmptyQueryKeepsAllBlogs | Frontend/src/components/PageComponents/Admin/BlogsManager.tsx:44-48 | an empty search lists every post |
| BlogsManager.FilteredBlogs | Frontend/src/components/PageComponents/Admin/BlogsManager.tsx:44-48 | the search result, characterised by FilteredBlogsExact and FilteredBlogsAppend |
| ProjectsManager.FilteredProjectsExact | Frontend/src/components/PageComponents/Admin/ProjectsManager.tsx:43-48 | a project is listed exactly when its name, its description or one of its tags contains the query |
| ProjectsManager.FilteredProjectsAppend | Frontend/src/components/PageComponents/Admin/ProjectsManager.tsx:43-48 | the search keeps list order |
| ProjectsManager.EmptyQueryKeepsAllProjects | Frontend/src/components/PageComponents/Admin/ProjectsManager.tsx:43-48 | an empty search lists every project |
| ProjectsManager.FilteredProjects | Frontend/src/components/PageComponents/Admin/ProjectsManager.tsx:43-48 | the search result, characterised by FilteredProjectsExact and FilteredProjectsAppend |
| ProjectsManager.Put | Frontend/src/components/PageComponents/Admin/ProjectsManager.tsx:202-204 | one field gets the value; every other field, the id and the tags are kept |
| ProjectsManager.PutGet | Frontend/src/components/PageComponents/Admin/ProjectsManager.tsx:202-204 | writing a field's own value changes nothing |
| ProjectsManager.ProjectEditor.constructor | Frontend/src/components/PageComponents/Admin/ProjectsManager.tsx:188-200 | the form starts from the edited project, or a new one with a clock id, today's date, category "web" and no tags |
| ProjectsManager.NewProject | Frontend/src/components/PageComponents/Admin/ProjectsManager.tsx:188-198 | a new project: clock id, today's date, category "web", no tags, the other fields empty |
| ProjectsManager.ProjectEditor.HandleChange | Frontend/src/components/PageComponents/Admin/ProjectsManager.tsx:202-204 | the form gets one field updated |
| ProjectsManager.ProjectEditor.SetTagInput | Frontend/src/components/PageComponents/Admin/ProjectsManager.tsx:200 | only the tag input changes |
| ProjectsManager.ProjectEditor.AddTag | Frontend/src/components/PageComponents/Admin/ProjectsManager.tsx:206-211 | the trimmed input is added only when it is non-empty and new; the input is cleared exactly then |
| ProjectsManager.ProjectEditor.RemoveTag | Frontend/src/components/PageComponents/Admin/ProjectsManager.tsx:213-215 | every copy of the tag is removed |
| ProjectsManager.ProjectEditor.HandleSubmit | Frontend/src/components/PageComponents/Admin/ProjectsManager.tsx:217-223 | the form is saved exactly when the name and the description are non-empty |
| ProjectsManager.EditAndTag | Frontend/src/components/PageComponents/Admin/ProjectsManager.tsx:200-223 | opening a project, adding a new tag and submitting forwards the tagged project and closes the editor |
| ProjectsManager.TagAndSave | Frontend/src/components/PageComponents/Admin/ProjectsManager.tsx:206-223 | editing, tagging and saving a listed project replaces it with the tagged version |
| EntryList.Added | Frontend/src/components/PageComponents/Admin/ProjectsManager.tsx:206-211 | the list only grows, by one exactly when the trimmed input is non-empty and new, and by that input |
| EntryList.Removed | Frontend/src/components/PageComponents/Admin/ProjectsManager.tsx:213-215 | the removed entry is gone and every other entry stays |
| EntryList.AddedKeepsClean | Frontend/src/components/PageComponents/Admin/ProjectsManager.tsx:206-211 | adding keeps the list free of duplicates and of empty entries |
| EntryList.AddedTwice | Frontend/src/components/PageComponents/Admin/ProjectsManager.tsx:206-211 | pressing add twice with the same input adds it once |
| EntryList.RemovedKeepsClean | Frontend/src/components/PageComponents/Admin/ProjectsManager.tsx:213-215 | removing keeps the list free of duplicates and of empty entries |
| EntryList.FilterKeepsClean | Frontend/src/components/PageComponents/Admin/ProjectsManager.tsx:213-215 | filtering a duplicate-free list of non-empty entries keeps it so |
| EntryList.AddedThenRemoved | Frontend/src/components/PageComponents/Admin/ExperienceManager.tsx:212-221 | on a clean list, adding an entry and removing it restores the list |
| SkillsManager.FilteredSkillsExact | Frontend/src/components/PageComponents/Admin/SkillsManager.tsx:43-47 | a skill is listed exactly when its name or its category (when it has one) contains the query |
| SkillsManager.FilteredSkillsAppend | Frontend/src/components/PageComponents/Admin/SkillsManager.tsx:43-47 | the search keeps list order |
| SkillsManager.EmptyQueryKeepsAllSkills | Frontend/src/components/PageComponents/Admin/SkillsManager.tsx:43-47 | an empty search lists every skill |
| SkillsManager.FilteredSkills | Frontend/src/components/PageComponents/Admin/SkillsManager.tsx:43-47 | the search result, characterised by FilteredSkillsExact and FilteredSkillsAppend |
| SkillsManager.NewSkillId | Frontend/src/components/PageComponents/Admin/SkillsManager.tsx:172 | a new skill's id is "skill-" followed by the clock value in decimal |
| SkillsManager.NewSkillIdsDistinct | Frontend/src/components/PageComponents/Admin/SkillsManager.tsx:172 | skills created at different instants get different ids |
| SkillsManager.NewSkill | Frontend/src/components/PageComponents/Admin/SkillsManager.tsx:170-177 | a new skill: clock id, empty name and icon, empty category |
| SkillsManager.SkillEditor.constructor | Frontend/src/components/PageComponents/Admin/SkillsManager.tsx:170-177 | the form starts from the edited skill or from a new, empty one |
| SkillsManager.SkillEditor.HandleChange | Frontend/src/components/PageComponents/Admin/SkillsManager.tsx:179-181 | the form gets one field updated |
| SkillsManager.SkillEditor.HandleSubmit | Frontend/src/components/PageComponents/Admin/SkillsManager.tsx:183-189 | the form is saved exactly when the name and the icon are non-empty |
| SkillsManager.CreateSkill | Frontend/src/components/PageComponents/Admin/SkillsManager.tsx:170-189 | a new skill is accepted once it has a name and an icon, whatever its category |
| SocialsManager.NewSocialId | Frontend/src/components/PageComponents/Admin/SocialsManager.tsx:155 | a new link's id is "social-" followed by the clock value in decimal |
| SocialsManager.NewSocial | Frontend/src/components/PageComponents/Admin/SocialsManager.tsx:153-161 | a new link: clock id, empty name, url and icon, platform "other" |
| SocialsManager.Put | Frontend/src/components/PageComponents/Admin/SocialsManager.tsx:163-165 | one field gets the value; every other field and the id are kept |
| SocialsManager.Template | Frontend/src/components/PageComponents/Admin/SocialsManager.tsx:176-193 | exactly the five named platforms have an icon template |
| SocialsManager.PlatformChangeWrites | Frontend/src/components/PageComponents/Admin/SocialsManager.tsx:243-247 | first the platform is written into the snapshot; a second write, of the template icon into the same snapshot, follows exactly when the platform has a template |
| SocialsManager.AfterPlatformChange | Frontend/src/components/PageComponents/Admin/SocialsManager.tsx:243-247 | the form after both queued writes, characterised by PlatformSticksOnlyWithoutTemplate and OtherKeepsIcon |
| SocialsManager.PlatformSticksOnlyWithoutTemplate | Frontend/src/components/PageComponents/Admin/SocialsManager.tsx:243-247 | the chosen platform is kept exactly when it has no template or was already selected; with a template only the icon changes |
| SocialsManager.OtherKeepsIcon | Frontend/src/components/PageComponents/Admin/SocialsManager.tsx:243-247 | choosing "other" keeps the icon |
| SocialsManager.SocialEditor.constructor | Frontend/src/components/PageComponents/Admin/SocialsManager.tsx:153-161 | the form starts from the edited link or from a new one on platform "other" |
| SocialsManager.SocialEditor.HandleChange | Frontend/src/components/PageComponents/Admin/SocialsManager.tsx:163-165 | the form gets one field updated |
| SocialsManager.SocialEditor.LoadTemplate | Frontend/src/components/PageComponents/Admin/SocialsManager.tsx:195-200 | a platform that has a template sets the icon to it; any other platform changes nothing |
| SocialsManager.SocialEditor.HandlePlatformChange | Frontend/src/components/PageComponents/Admin/SocialsManager.tsx:243-247 | the form becomes the last write queued from the snapshot |
| SocialsManager.SocialEditor.HandleSubmit | Frontend/src/components/PageComponents/Admin/SocialsManager.tsx:167-173 | the link is saved exactly when its name, url and icon are non-empty |
| SocialsManager.PickGithubOnNewLink | Frontend/src/components/PageComponents/Admin/SocialsManager.tsx:243-247 | picking GitHub on a new link loads the GitHub icon and leaves the platform on "other" |
| ExperienceManager.FilteredExperiencesExact | Frontend/src/components/PageComponents/Admin/ExperienceManager.tsx:43-48 | an entry is listed exactly when its company, position or description contains the query |
| ExperienceManager.EmptyQueryKeepsAllExperiences | Frontend/src/components/PageComponents/Admin/ExperienceManager.tsx:43-48 | an empty search lists every entry |
| ExperienceManager.FilteredExperiences | Frontend/src/components/PageComponents/Admin/ExperienceManager.tsx:43-48 | the search result, characterised by FilteredExperiencesExact |
| ExperienceManager.EndKey | Frontend/src/components/PageComponents/Admin/ExperienceManager.tsx:52-53 | the sort key: now for a current role, else the parsed end date |
| ExperienceManager.Insert | Frontend/src/components/PageComponents/Admin/ExperienceManager.tsx:51-55 | one step of the stable sort; characterised by InsertFacts |
| ExperienceManager.InsertFacts | Frontend/src/components/PageComponents/Admin/ExperienceManager.tsx:51-55 | inserting into a newest-first list adds exactly that entry and keeps the order |
| ExperienceManager.SortDescending | Frontend/src/components/PageComponents/Admin/ExperienceManager.tsx:51-55 | a stable sort by descending end key, proved a sorted permutation in SortDescendingFacts |
| ExperienceManager.SortedExperiences | Frontend/src/components/PageComponents/Admin/ExperienceManager.tsx:43-55 | the list the manager shows: the search result sorted newest first, characterised by SortedExperiencesFacts |
| ExperienceManager.SortDescendingFacts | Frontend/src/components/PageComponents/Admin/ExperienceManager.tsx:51-55 | the sort is a permutation and orders the entries by descending end time |
| ExperienceManager.SortedExperiencesFacts | Frontend/src/components/PageComponents/Admin/ExperienceManager.tsx:43-55 | the shown list holds exactly the matching entries, as often as listed, newest first |
| ExperienceManager.CurrentRoleFirst | Frontend/src/components/PageComponents/Admin/ExperienceManager.tsx:51-55 | a current role is shown before every role that ended in the past |
| ExperienceManager.NewExperienceId | Frontend/src/components/PageComponents/Admin/ExperienceManager.tsx:195 | a new entry's id is "exp-" followed by the clock value in decimal |
| ExperienceManager.NewExperience | Frontend/src/components/PageComponents/Admin/ExperienceManager.tsx:193-204 | a new entry: clock id, empty fields, no technologies |
| ExperienceManager.ExperienceEditor.constructor | Frontend/src/components/PageComponents/Admin/ExperienceManager.tsx:193-206 | the form starts from the edited entry or a new one; the "current" switch is on exactly when the end date is "Present" |
| ExperienceManager.ExperienceEditor.HandleChange | Frontend/src/components/PageComponents/Admin/ExperienceManager.tsx:208-210 | the form gets one text field updated |
| ExperienceManager.ExperienceEditor.HandleEndDateChange | Frontend/src/components/PageComponents/Admin/ExperienceManager.tsx:355-357 | while the role is not current, typing sets the end date |
| ExperienceManager.ExperienceEditor.SetTechInput | Frontend/src/components/PageComponents/Admin/ExperienceManager.tsx:205 | only the technology input changes |
| ExperienceManager.ExperienceEditor.AddTech | Frontend/src/components/PageComponents/Admin/ExperienceManager.tsx:212-217 | the trimmed input is added only when it is non-empty and new; the input is cleared exactly then |
| ExperienceManager.ExperienceEditor.RemoveTech | Frontend/src/components/PageComponents/Admin/ExperienceManager.tsx:219-221 | every copy of the technology is removed |
| ExperienceManager.ExperienceEditor.HandleCurrentRoleChange | Frontend/src/components/PageComponents/Admin/ExperienceManager.tsx:223-230 | checking sets the end date to "Present"; unchecking empties it |
| ExperienceManager.ExperienceEditor.HandleSubmit | Frontend/src/components/PageComponents/Admin/ExperienceManager.tsx:232-242 | the entry is saved exactly when company, position, start date and description are set and the role is current or has an end date |
| ExperienceManager.SubmitNeedsEndDate | Frontend/src/components/PageComponents/Admin/ExperienceManager.tsx:232-242 | since a current role carries "Present", acceptance needs only the four fields and a non-empty end date |
| ExperienceManager.CurrentRoleToggledOff | Frontend/src/components/PageComponents/Admin/ExperienceManager.tsx:223-242 | switching "current" on and off again leaves no end date, so the form is refused |
| AdminLogin.LoginForm.constructor | Frontend/src/components/PageComponents/Admin/AdminLogin.tsx:16-21 | empty fields and no messages |
| AdminLogin.LoginForm.SetEmail | Frontend/src/components/PageComponents/Admin/AdminLogin.tsx:16-21 | only the email changes |
| AdminLogin.LoginForm.SetPassword | Frontend/src/components/PageComponents/Admin/AdminLogin.tsx:16-21 | only the password changes |
| AdminLogin.LoginForm.SubmitBegin | Frontend/src/components/PageComponents/Admin/AdminLogin.tsx:41-52 | credentials are sent exactly when both fields are filled; each missing field gets its own message |
| AdminLogin.AfterLogin | Frontend/src/components/PageComponents/Admin/AdminLogin.tsx:52-60 | success shows a success toast and goes to "/admin"; failure shows the error toast and stays |
| AdminLogin.DisplayedError | Frontend/src/components/PageComponents/Admin/AdminLogin.tsx:85-87 | the store's error, else the email message, else the password message, else nothing |
| AdminLogin.BothMissingShowsEmail | Frontend/src/components/PageComponents/Admin/AdminLogin.tsx:85-87 | with both fields missing only the email message is shown |
| AdminLogin.EmptyPassword | Frontend/src/components/PageComponents/Admin/AdminLogin.tsx:41-49 | a missing password sends nothing and displays only its message |
| AdminLogin.RejectedLogin | Frontend/src/components/PageComponents/Admin/AdminLogin.tsx:52-60 | a rejected login shows the server's message and the error toast, without navigating |
| Blocks.KindOf | Frontend/src/types/blog.ts:1 | reading a type name gives back a kind with that name |
| Blocks.KindRoundTrip | Frontend/src/types/blog.ts:1 | naming a kind and reading the name back gives the kind |
| Blocks.Ids | Frontend/src/types/blog.ts:3-13 | position by position, the ids of the blocks |
| Blocks.Kinds | Frontend/src/types/blog.ts:3-13 | position by position, the types of the blocks |
| Blocks.DefaultData | Frontend/src/components/PageComponents/Admin/BlogEditor.tsx:27-42 | the data each new block starts with, shown accepted by the backend in BlogModel.DefaultBlocksAccepted and rendered as its own type in BlockRenderer.DefaultsRender |
| Blocks.TextEdit | Frontend/src/components/PageComponents/Admin/BlogEditor.tsx:310 | a paragraph edit (and the callout edit at line 426) sends a record holding only the text, dropping the other fields; accepted by the backend by TextEditAccepted |
| Blocks.HeadingLevelEdit | Frontend/src/components/PageComponents/Admin/BlogEditor.tsx:326 | `{ ...block.data, level }`: sets the level and keeps every other field |
| Blocks.HeadingTextEdit | Frontend/src/components/PageComponents/Admin/BlogEditor.tsx:339 | `{ ...block.data, text }`: sets the text and keeps every other field |
| Blocks.CodeLanguageEdit | Frontend/src/components/PageComponents/Admin/BlogEditor.tsx:400 | `{ ...block.data, language }`: sets the language and keeps every other field |
| Blocks.CodeTextEdit | Frontend/src/components/PageComponents/Admin/BlogEditor.tsx:410 | `{ ...block.data, code }`: sets the code and keeps every other field |
| Blocks.ShownItems | Frontend/src/components/PageComponents/Admin/BlogEditor.tsx:353 | the items shown: the stored ones, or one empty item when there are none |
| Blocks.StoredItems | Frontend/src/components/PageComponents/Admin/BlogEditor.tsx:359 | the items edits start from: the stored ones, or none |
| Blocks.ListItemEdit | Frontend/src/components/PageComponents/Admin/BlogEditor.tsx:358-362 | typing into a shown item overwrites exactly that slot; the record keeps only `items` |
| Blocks.ListItemRemove | Frontend/src/components/PageComponents/Admin/BlogEditor.tsx:371-374 | removing never leaves an empty item list |
| Blocks.ListItemRemoveContent | Frontend/src/components/PageComponents/Admin/BlogEditor.tsx:371-374 | the other items in order, or one empty item when none would remain |
| Blocks.ListItemAdd | Frontend/src/components/PageComponents/Admin/BlogEditor.tsx:382 | one empty item is appended after the stored ones |
| BlogEditor.NewBlockIdsDistinct | Frontend/src/components/PageComponents/Admin/BlogEditor.tsx:20 | blocks added at different instants get different ids |
| BlogEditor.NewBlockId | Frontend/src/components/PageComponents/Admin/BlogEditor.tsx:20 | "b" followed by the clock value; distinct per instant by NewBlockIdsDistinct |
| BlogEditor.NewBlock | Frontend/src/components/PageComponents/Admin/BlogEditor.tsx:18-24 | a block with the clock id, the chosen type and that type's default data; appended by Editor.AddBlock |
| BlogEditor.MoveTarget | Frontend/src/components/PageComponents/Admin/BlogEditor.tsx:55 | the neighbour slot a move swaps with, one up or one down; used by Moved, MovedPermutes and MovedAtBoundary |
| BlogEditor.WithData | Frontend/src/components/PageComponents/Admin/BlogEditor.tsx:44-48 | only block `i`'s data changes; the ids and the types of all blocks are kept |
| BlogEditor.Moved | Frontend/src/components/PageComponents/Admin/BlogEditor.tsx:54-63 | the block list after a move: the swap with the neighbour, or the same list past either end, with its properties in MovedPermutes, MovedAtBoundary and MoveDownThenUp |
| BlogEditor.MovedPermutes | Frontend/src/components/PageComponents/Admin/BlogEditor.tsx:54-63 | a move is a permutation of the blocks and of their ids |
| BlogEditor.MovedAtBoundary | Frontend/src/components/PageComponents/Admin/BlogEditor.tsx:56 | a move past either end changes nothing |
| BlogEditor.MoveDownThenUp | Frontend/src/components/PageComponents/Admin/BlogEditor.tsx:54-63 | moving a block down and back up restores the list |
| BlogEditor.Editor.constructor | Frontend/src/components/PageComponents/Admin/BlogEditor.tsx:11-16 | the form starts from the edited post's fields, or empty with today's date |
| BlogEditor.Editor.AddBlock | Frontend/src/components/PageComponents/Admin/BlogEditor.tsx:18-42 | one block with the type's default data is appended |
| BlogEditor.Editor.UpdateBlock | Frontend/src/components/PageComponents/Admin/BlogEditor.tsx:44-48 | the blocks become `WithData` of the old ones |
| BlogEditor.Editor.DeleteBlock | Frontend/src/components/PageComponents/Admin/BlogEditor.tsx:50-52 | the block at the index goes; an index out of range changes nothing |
| BlogEditor.Editor.MoveBlock | Frontend/src/components/PageComponents/Admin/BlogEditor.tsx:54-63 | the block is swapped with its neighbour, or nothing happens at the ends |
| BlogEditor.Editor.SetSlug | Frontend/src/components/PageComponents/Admin/BlogEditor.tsx:162 | the stored slug is the normalised input, with no whitespace |
| BlogEditor.Editor.HandleSave | Frontend/src/components/PageComponents/Admin/BlogEditor.tsx:65-81 | the post is saved exactly when title, excerpt and slug are filled, with the edited post's id or the clock |
| BlogEditor.SaveIdChoice | Frontend/src/components/PageComponents/Admin/BlogEditor.tsx:72 | an edited post with a non-empty id keeps it; a new post, or one whose id is empty, gets the clock value |
| BlogEditor.SaveId | Frontend/src/components/PageComponents/Admin/BlogEditor.tsx:72 | the saved post's id: the edited one when non-empty, else the clock value; characterised by SaveIdChoice |
| BlockRenderer.Render | Frontend/src/components/PageComponents/Blog/BlockRenderer.tsx:14-28 | each standard type gets its own component and that block's fields; headings default to level 2; other types render nothing |
| BlockRenderer.RenderIgnoresId | Frontend/src/components/PageComponents/Blog/BlockRenderer.tsx:14-28 | rendering does not depend on the block's id |
| BlockRenderer.RenderDistinguishesKinds | Frontend/src/components/PageComponents/Blog/BlockRenderer.tsx:15-25 | different standard types never share a component |
| BlockRenderer.HeadingDefaultsToLevelTwo | Frontend/src/components/PageComponents/Blog/BlockRenderer.tsx:19 | a heading without a level renders at level 2 |
| BlockRenderer.DefaultsRender | Frontend/src/components/PageComponents/Admin/BlogEditor.tsx:27-42 | a new block's default data renders as its own type |
| Slug.AcceptsShape | Backend/internal/utils/validator.go:25 | the regular expression's automaton accepts exactly the strings of the slug shape |
| Slug.Accepts | Backend/internal/utils/validator.go:25 | the two-state automaton of `^[a-z0-9]+(?:-[a-z0-9]+)*$`, characterised by AcceptsShape |
| Slug.ValidSlug | Backend/internal/utils/validator.go:22-26 | the registered `slug` rule, characterised by ValidSlugIff |
| Slug.ValidSlugIff | Backend/internal/utils/validator.go:22-26 | a slug is valid exactly when it is non-empty, uses only lower-case letters, digits and '-', does not start or end with '-', and has no "--" |
| Slug.AcceptsAppend | Backend/internal/utils/validator.go:25 | the slug automaton reads a concatenation by reading the first part and then the second |
| Slug.JoinValid | Backend/internal/utils/validator.go:25 | two valid slugs joined by '-' form a valid slug |
| Slug.DashSpaceRunsShape | Frontend/src/components/PageComponents/Admin/BlogEditor.tsx:162 | after the replacement no whitespace remains, and no upper-case letter comes back |
| Slug.DashSpaceRunsIdentity | Frontend/src/components/PageComponents/Admin/BlogEditor.tsx:162 | input without whitespace is left as it is |
| Slug.DashSpaceRuns | Frontend/src/components/PageComponents/Admin/BlogEditor.tsx:162 | `replace(/\s+/g, '-')`: each maximal whitespace run becomes one '-', with its properties in DashSpaceRunsShape and DashSpaceRunsIdentity |
| Slug.Normalize | Frontend/src/components/PageComponents/Admin/BlogEditor.tsx:162 | lower-casing followed by the run replacement, with its properties in NormalizeNoSpace, NormalizeIdempotent and NormalizeDoesNotValidate |
| Slug.LowerIdentity | Frontend/src/components/PageComponents/Admin/BlogEditor.tsx:162 | lower-casing text with no upper-case letter changes nothing |
| Slug.NormalizeNoSpace | Frontend/src/components/PageComponents/Admin/BlogEditor.tsx:162 | a normalised slug holds no whitespace and no upper-case letter |
| Slug.NormalizeIdempotent | Frontend/src/components/PageComponents/Admin/BlogEditor.tsx:162 | normalising twice equals normalising once |
| Slug.NormalizeDoesNotValidate | Frontend/src/components/PageComponents/Admin/BlogEditor.tsx:162 | "a!" is left unchanged by the editor and is refused by the backend grammar |
| CvPager.Pager.constructor | Frontend/src/pages/CV.tsx:10-16 | the viewer starts on page 1, not flipping |
| CvPager.Pager.Next | Frontend/src/pages/CV.tsx:105-117 | ignored while flipping or on the last page; otherwise a flip to the next page is scheduled |
| CvPager.Pager.Previous | Frontend/src/pages/CV.tsx:120-132 | ignored while flipping or on page 1; otherwise a flip to the previous page is scheduled |
| CvPager.Pager.FlipEnds | Frontend/src/pages/CV.tsx:113-116 | the page moves to the scheduled neighbour and stays in bounds |
| CvPager.DoubleClickMovesOnce | Frontend/src/pages/CV.tsx:105-132 | a double click advances one page; "previous" on page 1 does nothing |
| CloudinaryUrl.Segment | Frontend/src/utils/cloudinary.ts:13 | the width and the height sit at fixed offsets of the transformation |
| CloudinaryUrl.TransformationDoubles | Frontend/src/utils/cloudinary.ts:13 | the transformation asks for twice the width and twice the height |
| CloudinaryUrl.Optimize | Frontend/src/utils/cloudinary.ts:2-16 | a URL that "/upload/" does not split into exactly two parts is returned unchanged |
| CloudinaryUrl.OptimizeSplices | Frontend/src/utils/cloudinary.ts:8-15 | a rewritten URL is the part before "/upload/", "/upload/", the transformation and the part after; neither part contains "/upload/", and the cut is at its first occurrence |
| CloudinaryUrl.NotCloudinaryUnchanged | Frontend/src/utils/cloudinary.ts:10 | a URL without "/upload/" is untouched |
| CloudinaryUrl.TwoUploadsUnchanged | Frontend/src/utils/cloudinary.ts:8-10 | a URL holding "/upload/" twice splits into more than two parts and is returned unchanged |
| CloudinaryUrl.Transformation | Frontend/src/utils/cloudinary.ts:13 | the segment for a display box; its doubled numbers are stated by TransformationDoubles |
| Navigation.AllowedPaths | Frontend/src/components/GlobalComponents/Navigation/Navigation.tsx:48-67 | a page never links to itself; unknown routes link nowhere |
| Navigation.VisibleExact | Frontend/src/components/GlobalComponents/Navigation/Navigation.tsx:70-72 | exactly the allowed links other than the current page are shown |
| Navigation.FilteredLinks | Frontend/src/components/GlobalComponents/Navigation/Navigation.tsx:70-72 | the shown links: the fixed link list filtered by the current route, characterised by VisibleExact and CurrentNeverOffered |
| Navigation.CurrentNeverOffered | Frontend/src/components/GlobalComponents/Navigation/Navigation.tsx:71 | the current page is never offered |
| Navigation.UnknownRouteShowsNothing | Frontend/src/components/GlobalComponents/Navigation/Navigation.tsx:65-66 | an unknown route offers no links |
| Navigation.NoneVisible | Frontend/src/components/GlobalComponents/Navigation/Navigation.tsx:70-72 | a page that allows no links shows none, whatever the table |
| Navigation.HomeLinks | Frontend/src/components/GlobalComponents/Navigation/Navigation.tsx:50-51 | the home page offers about, development and CV, in table order |
| Navigation.ActiveIcon | Frontend/src/components/GlobalComponents/Navigation/Navigation.tsx:75-76 | the current page's icon, or the home icon off the table |
| Navigation.Menu.constructor | Frontend/src/components/GlobalComponents/Navigation/Navigation.tsx:17-20 | the menu starts closed, not loading |
| Navigation.Menu.Toggle | Frontend/src/components/GlobalComponents/Navigation/Navigation.tsx:113 | the menu button flips the menu |
| Navigation.Menu.HandleNavLink | Frontend/src/components/GlobalComponents/Navigation/Navigation.tsx:80-85 | a click starts loading, closes the menu and requests the route |
| Navigation.Menu.LocationChanged | Frontend/src/components/GlobalComponents/Navigation/Navigation.tsx:87-90 | a route change stops loading |
| AdminSidebar.IsActive | Frontend/src/components/PageComponents/Admin/AdminSidebar.tsx:23-28 | the dashboard is highlighted only on its own path; other items on their path and below |
| AdminSidebar.BlogsPageHighlight | Frontend/src/components/PageComponents/Admin/AdminSidebar.tsx:14-28 | on the blog list only "Blogs" is highlighted, not the dashboard |
| AdminSidebar.SubPageActive | Frontend/src/components/PageComponents/Admin/AdminSidebar.tsx:27 | a sub-page keeps its item highlighted |
| AdminSidebar.Sidebar.constructor | Frontend/src/components/PageComponents/Admin/AdminSidebar.tsx:7 | the sidebar starts in the open state its parent passes |
| AdminSidebar.Sidebar.Close | Frontend/src/components/PageComponents/Admin/AdminSidebar.tsx:39-45 | `onClose` from the overlay or the close button closes the sidebar |
| AdminSidebar.Sidebar.HandleLinkClick | Frontend/src/components/PageComponents/Admin/AdminSidebar.tsx:31-36 | a link click leaves the sidebar open only when it was open and the window is at least 1024 pixels wide |
| AdminSidebar.ClickFromState | Frontend/src/components/PageComponents/Admin/AdminSidebar.tsx:31-36 | after a click the sidebar is open exactly when it was open on a wide window; a closed one never opens |
| BlogSeo.Take | Frontend/src/utils/generateBlogSEO.ts:154 | `slice(0, n)`: a prefix of length min(n, length) |
| BlogSeo.ImageOf | Frontend/src/utils/generateBlogSEO.ts:115-124 | the image one block offers: an image block's truthy url, or the match on a truthy paragraph text; the reference for FirstImageIsEarliest |
| BlogSeo.FirstImageIsEarliest | Frontend/src/utils/generateBlogSEO.ts:112-129 | the image is the one of the earliest block offering one, and none exists when no block offers one |
| BlogSeo.FirstImage | Frontend/src/utils/generateBlogSEO.ts:112-129 | the image of the first block offering one, characterised by FirstImageIsEarliest |
| BlogSeo.ExtractFirstImage | Frontend/src/utils/generateBlogSEO.ts:112-129 | the scan loop returns the first image |
| BlogSeo.ImageChoice | Frontend/src/utils/generateBlogSEO.ts:14-15 | the post's image, else the first block image, else the default image; never empty |
| BlogSeo.FoundFacts | Frontend/src/utils/generateBlogSEO.ts:172-176 | one block adds exactly the names it mentions, after the earlier ones, without duplicates |
| BlogSeo.Found | Frontend/src/utils/generateBlogSEO.ts:172-176 | one block's additions, in tech-stack order, skipping names already present; characterised by FoundFacts |
| BlogSeo.Scan | Frontend/src/utils/generateBlogSEO.ts:169-179 | the keyword set over all blocks in order; characterised by ScanFacts |
| BlogSeo.TechKeywords | Frontend/src/utils/generateBlogSEO.ts:160-180 | the scan over the fixed tech stack; characterised by TechKeywordsFacts |
| BlogSeo.Mentioned | Frontend/src/utils/generateBlogSEO.ts:173 | some block's lower-cased text contains the lower-cased name; the condition of ScanFacts |
| BlogSeo.ScanFacts | Frontend/src/utils/generateBlogSEO.ts:169-179 | a name is found exactly when some block mentions it; no name twice |
| BlogSeo.TechKeywordsFacts | Frontend/src/utils/generateBlogSEO.ts:160-180 | technical keywords are exactly the tech-stack names the blocks mention, without duplicates |
| BlogSeo.AddFound | Frontend/src/utils/generateBlogSEO.ts:172-176 | the inner loop computes the additions of one block |
| BlogSeo.ScanBlocks | Frontend/src/utils/generateBlogSEO.ts:169-178 | the outer loop computes the scan over all blocks |
| BlogSeo.ExtractTechnicalKeywords | Frontend/src/utils/generateBlogSEO.ts:160-180 | returns the technical keywords |
| BlogSeo.TitleWordsFacts | Frontend/src/utils/generateBlogSEO.ts:142-146 | every title word kept is longer than three characters and not a common word |
| BlogSeo.TitleWords | Frontend/src/utils/generateBlogSEO.ts:141-146 | the lower-cased title split on spaces, keeping words longer than three characters that are not common words, with its properties in TitleWordsFacts |
| BlogSeo.AssembledFacts | Frontend/src/utils/generateBlogSEO.ts:136-154 | at most ten keywords: the two fixed ones first, then up to three title words, then technical ones |
| BlogSeo.GeneratedKeywordsFacts | Frontend/src/utils/generateBlogSEO.ts:135-155 | generated keywords start with the fixed ones, never exceed ten, and each later one is a title word or a mentioned technology |
| BlogSeo.GeneratedKeywords | Frontend/src/utils/generateBlogSEO.ts:135-155 | the two fixed keywords, up to three title words and the technical keywords, cut to ten, with its properties in GeneratedKeywordsFacts |
| BlogSeo.GenerateKeywords | Frontend/src/utils/generateBlogSEO.ts:135-155 | returns the generated keywords |
| BlogSeo.TextPartsAppend | Frontend/src/utils/generateBlogSEO.ts:188-198 | text pieces follow block order |
| BlogSeo.CodeBlockSkipped | Frontend/src/utils/generateBlogSEO.ts:188-198 | a code block adds nothing to the article body |
| BlogSeo.ArticleBody | Frontend/src/utils/generateBlogSEO.ts:200 | a prefix of the joined text, at most 500 characters long, and all of it when it fits |
| BlogSeo.ExtractText | Frontend/src/utils/generateBlogSEO.ts:185-201 | the loop computes the article body |
| BlogSeo.CountedWordsAreTokens | Frontend/src/utils/generateBlogSEO.ts:208 | every counted word is a non-empty run without whitespace |
| BlogSeo.WordCount | Frontend/src/utils/generateBlogSEO.ts:208 | the number of non-empty pieces of the whitespace split; each counted piece is a word (CountedWordsAreTokens) and a text of n words has count n (WordCountOfWords) |
| BlogSeo.WordCountOfWords | Frontend/src/utils/generateBlogSEO.ts:206-209 | a text of n words separated and surrounded by whitespace has word count n |
| BlogSeo.WordCountBlank | Frontend/src/utils/generateBlogSEO.ts:206-209 | a text of whitespace only has word count zero |
| BlogSeo.PartsOf | Frontend/src/utils/generateBlogSEO.ts:189-198 | the pieces one block adds: paragraph, heading and callout text when truthy, every list item, nothing for code or other types (CodeBlockSkipped) |
| BlogSeo.TextParts | Frontend/src/utils/generateBlogSEO.ts:185-200 | the pieces of all blocks in block order, the reference for ExtractText and TextPartsAppend |
| BlogSeo.CalculateWordCount | Frontend/src/utils/generateBlogSEO.ts:206-209 | the word count of the truncated article body |
| BlogSeo.BlogPath | Frontend/src/utils/generateBlogSEO.ts:30 | the path is "/blog/" followed by the slug |
| BlogSeo.KeywordChoice | Frontend/src/utils/generateBlogSEO.ts:18-20 | the post's own keywords when there are any, otherwise the generated ones |
| BlogSeo.OrElse | Frontend/src/utils/generateBlogSEO.ts:23-24 | the own field when non-empty, else the fallback |
| BlogSeo.GenerateBlogSeo | Frontend/src/utils/generateBlogSEO.ts:12-67 | title, description, image, keywords, path, url, dates, article body and word count, each from its fallback rule |
| BlogSeo.OwnMetadataWins | Frontend/src/utils/generateBlogSEO.ts:14-20 | a post with its own image and keywords keeps them whatever its blocks hold |
| BlogModel.ValidateBlockData | Backend/internal/models/blog.go:61-85 | every failure is the block-data error; types outside the allowed set are not checked here |
| BlogModel.RequestTagsValid | Backend/internal/models/blog.go:35-45 | the struct tags of a request: title 3 to 500, excerpt 10 to 1000, a date, a 3-to-500 slug the `slug` rule accepts, meta title at most 255, meta description at most 1000, a URL meta image when given |
| BlogModel.TextBlocksValidIff | Backend/internal/models/blog.go:63-66 | a paragraph or callout passes exactly when `text` is a string |
| BlogModel.HeadingValidIff | Backend/internal/models/blog.go:67-73 | a heading passes exactly when `text` is a string and `level` is the number 2 or 3 |
| BlogModel.ListValidIff | Backend/internal/models/blog.go:74-78 | a list passes exactly when `items` is a non-empty array |
| BlogModel.CodeValidIff | Backend/internal/models/blog.go:79-82 | a code block passes exactly when `code` is a string; `language` is ignored |
| BlogModel.OtherTypesPassDataCheck | Backend/internal/models/blog.go:30 | another type passes the data check but fails the `oneof` tag |
| BlogModel.EncodeItems | Frontend/src/components/PageComponents/Admin/BlogEditor.tsx:361 | items are sent as JSON strings, one per item |
| BlogModel.DefaultBlocksAccepted | Frontend/src/components/PageComponents/Admin/BlogEditor.tsx:27-42 | every new block of a standard type passes both backend checks |
| BlogModel.ListEditsAccepted | Frontend/src/components/PageComponents/Admin/BlogEditor.tsx:353-383 | the list editor's edit, remove and add always leave a list block the backend accepts |
| BlogModel.ItemsOnlyAccepted | Frontend/src/components/PageComponents/Admin/BlogEditor.tsx:358-361 | a list block whose data is a non-empty `items` array and nothing else passes the backend check |
| BlogModel.TextEditAccepted | Frontend/src/components/PageComponents/Admin/BlogEditor.tsx:310 | paragraph and callout text edits always leave a block the backend accepts |
| BlogService.FirstBlockError | Backend/internal/services/blogService.go:67-74 | a block failure is invalid input or invalid block data |
| BlogService.NewBlog | Backend/internal/services/blogService.go:102-114 | the stored blog: every request field, the id and the two timestamps; what Service.Create and Service.Update store |
| BlogService.FirstBlockErrorLocates | Backend/internal/services/blogService.go:67-74 | no error exactly when every block passes; otherwise the error is that of the first failing block |
| BlogService.ValidateBlocks | Backend/internal/services/blogService.go:67-74 | the loop returns the first block error |
| BlogService.Service.constructor | Backend/internal/services/blogService.go:19-21 | the service wraps the given repository |
| BlogService.Service.GetAll | Backend/internal/services/blogService.go:24-47 | the listing metadata for the normalised page and page size |
| BlogService.Service.Create | Backend/internal/services/blogService.go:60-122 | request tags, block checks and slug uniqueness, in that order; success stores the new blog under the new id with a slug of the registered grammar; every failure leaves the repository; all stored slugs stay valid |
| BlogService.Service.Update | Backend/internal/services/blogService.go:125-194 | request tags, block checks, existence, then slug uniqueness only when the slug changes; success replaces the blog under the same id with a valid slug and keeps its creation time; all stored slugs stay valid |
| BlogService.OwnSlugExcluded | Backend/internal/repositories/blogRepository.go:313-323 | a blog's own slug does not count as taken when the blog itself is excluded |
| BlogService.SlugTaken | Backend/internal/repositories/blogRepository.go:313-323 | whether a blog other than the excluded id uses the slug (the `slug = ? AND id != ?` count), used by the create and update contracts |
| BlogService.SlugsValid | Backend/internal/utils/validator.go:22-26 | every stored blog has a slug of the registered grammar; kept by create and update |
| Pagination.NormalizePage | Backend/internal/services/blogService.go:25-27 | pages below 1 are read as page 1 |
| Pagination.NormalizePerPage | Backend/internal/services/blogService.go:28-30 | page sizes outside 1..100 become 15 |
| Pagination.TotalPagesIsCeiling | Backend/internal/services/blogService.go:37 | the page count is the ceiling of total over page size; zero exactly when there is nothing |
| Pagination.TotalPages | Backend/internal/services/blogService.go:37 | the rounded-up division, characterised by TotalPagesIsCeiling |
| Pagination.ListingMeta | Backend/internal/services/blogService.go:37-44 | the metadata has a normalised page and page size, the total, and enough pages for every record but no spare one |
| ProjectService.Service.constructor | Backend/internal/services/projectService.go:19-21 | empty repository, counter at 1 |
| ProjectService.FromRequest | Backend/internal/services/projectService.go:94-104 | the stored project: every request field, the id and the two timestamps; what Service.Create and Service.Update store |
| ProjectService.Service.GetAll | Backend/internal/services/projectService.go:24-47 | the listing metadata over all projects |
| ProjectService.Service.GetByCategory | Backend/internal/services/projectService.go:55-78 | the listing metadata over the projects of one category |
| ProjectService.Service.Create | Backend/internal/services/projectService.go:81-111 | invalid requests change nothing; otherwise the project gets the next counter value, a fresh id |
| ProjectService.Service.Update | Backend/internal/services/projectService.go:114-150 | invalid input, then not found; success rewrites the project under its id and keeps its creation time |
| ProjectService.CreatedIdsIncrease | Backend/internal/repositories/projectRepository.go:184-190 | two creates get different, increasing ids |
| AuthService.RecentAttempts | Backend/internal/repositories/userRepository.go:199-203 | the count of one email's attempts after a time: never more than the log holds, and zero exactly when no such attempt is logged |
| AuthService.RecentAttemptsAppend | Backend/internal/repositories/userRepository.go:187-203 | recording an attempt adds one to the count exactly when it matches |
| AuthService.WithoutEmail | Backend/internal/repositories/userRepository.go:216-217 | clearing removes exactly one email's attempts |
| AuthService.LiveToken | Backend/internal/repositories/userRepository.go:136-140 | only unexpired stored tokens are found |
| AuthService.Service.constructor | Backend/internal/services/authService.go:21-27 | the limits and users given, no attempts, no tokens |
| AuthService.Service.Setup | Backend/internal/services/authService.go:30-68 | an existing admin refuses before validation; otherwise one user is created, and returned without the hash |
| AuthService.Service.Login | Backend/internal/services/authService.go:71-139 | validation, rate limit, attempt logged, user and password check, attempts cleared, token stored: each failure leaves what it must |
| AuthService.Service.RefreshToken | Backend/internal/services/authService.go:142-176 | a bad signature or a missing or expired row gives invalid token; "expired" only between the two clock readings; otherwise a new access token for a known user |
| AuthService.Service.Logout | Backend/internal/services/authService.go:179-181 | exactly that refresh token is removed; no error |
| AuthService.LockoutAfterFailures | Backend/internal/services/authService.go:84-91 | after the limit of wrong passwords within the window even the right one is refused |
| CloudinaryService.Ext | Backend/internal/services/cloudinaryService.go:62 | `filepath.Ext` is a suffix of the path |
| CloudinaryService.ExtShape | Backend/internal/services/cloudinaryService.go:62 | an extension starts with '.' and holds no other '.' nor a separator |
| CloudinaryService.ExtEmptyWithoutDot | Backend/internal/services/cloudinaryService.go:62 | a name without '.' has no extension |
| CloudinaryService.ExtAfterLastDot | Backend/internal/services/cloudinaryService.go:62 | the extension is everything from the last '.' when no separator follows it |
| CloudinaryService.FilepathExt | Backend/internal/services/cloudinaryService.go:62 | the backwards scan computes the extension |
| CloudinaryService.ExtensionOf | Backend/internal/services/cloudinaryService.go:62 | the checked extension holds no '.' and no separator |
| CloudinaryService.TrimPrefix | Backend/internal/services/cloudinaryService.go:62 | `strings.TrimPrefix`: the prefix removed when present, else the input |
| CloudinaryService.TrimSuffix | Backend/internal/services/cloudinaryService.go:74 | `strings.TrimSuffix`: the suffix removed when present, else the input; PublicId states its result |
| CloudinaryService.PublicId | Backend/internal/services/cloudinaryService.go:74 | the name without its extension, '_' and the timestamp |
| CloudinaryService.IsAllowedFileType | Backend/internal/services/cloudinaryService.go:121-128 | allowed exactly when some configured type, lower-cased, equals the extension |
| CloudinaryService.Allowed | Backend/internal/services/cloudinaryService.go:122-123 | some configured type, lower-cased, equals the extension; the reference for IsAllowedFileType |
| CloudinaryService.UploadImage | Backend/internal/services/cloudinaryService.go:55-103 | size check, then type check, then read, then upload; each failure has its own error; success returns the host's result |
| CloudinaryService.PngExtension | Backend/internal/services/cloudinaryService.go:62 | "photo.final.PNG" is checked as "png" |
| CloudinaryService.NoExtension | Backend/internal/services/cloudinaryService.go:62 | "archive" has no extension |
| CloudinaryService.UpperCaseAllowed | Backend/internal/services/cloudinaryService.go:121-128 | the comparison ignores case on both sides |
| Config.GetEnv | Backend/config/config.go:144-149 | a set, non-empty variable wins; otherwise the default |
| Config.LoadSettings | Backend/config/config.go:71-141 | every setting is its variable when set and non-empty, else its default; the two lists go through the CSV parser (DefaultImageTypes, DefaultOrigins) |
| Config.FieldsEntriesShape | Backend/config/config.go:152-181 | no entry is empty, contains a comma or starts with a space |
| Config.Fields | Backend/config/config.go:152-181 | the entries of a comma-separated value: leading spaces of an entry skipped, trailing kept, empty entries dropped; characterised by FieldsSplit and the lemmas below |
| Config.FieldsPiece | Backend/config/config.go:152-181 | a stretch without a comma is one entry, its leading spaces skipped, or none when it is blank |
| Config.PieceEntries | Backend/config/config.go:152-181 | the independent reference: each comma-free piece's entry, blanks dropped, in order |
| Config.FieldsOfPieces | Backend/config/config.go:152-181 | parsing comma-free pieces joined by commas gives the reference entries of those pieces |
| Config.CleanPieceEntries | Backend/config/config.go:152-181 | pieces that are non-empty and start with no space are their own entries, which with FieldsOfPieces gives FieldsOfJoin |
| Config.FieldsSplit | Backend/config/config.go:152-181 | parsing any value equals taking the reference entries of its comma-split pieces |
| Config.FieldsJoin | Backend/config/config.go:152-181 | parsing two comma-joined values gives the entries of each, in order |
| Config.FieldsSingle | Backend/config/config.go:152-181 | a clean entry parses to itself |
| Config.FieldsOfJoin | Backend/config/config.go:152-181 | joining clean entries with commas and parsing gives them back |
| Config.TrailingSpacesKept | Backend/config/config.go:166-171 | trailing spaces stay part of an entry |
| Config.SkipSpacesFrom | Backend/config/config.go:160-162 | the loop stops at the first non-space |
| Config.ScanToComma | Backend/config/config.go:166-168 | the loop stops at the next comma or at the end |
| Config.ParseCsv | Backend/config/config.go:152-181 | the parser's loops compute exactly the specified entries |
| Config.DefaultImageTypes | Backend/config/config.go:136 | with nothing set, the allowed image types are jpg, jpeg, png, webp and svg |
| Config.DefaultOrigins | Backend/config/config.go:122 | with nothing set, the only allowed origin is http://localhost:5173 |
| Text.Lower | Frontend/src/components/PageComponents/Admin/BlogsManager.tsx:47 | `toLowerCase` keeps the length and lower-cases each ASCII letter in place |
| Text.LowerIdempotent | Frontend/src/components/PageComponents/Admin/BlogsManager.tsx:47 | lower-casing twice equals lower-casing once |
| Text.Trim | Frontend/src/components/PageComponents/Admin/ProjectsManager.tsx:207 | `trim()` returns a slice of the input with only whitespace cut off on either side, and the result neither starts nor ends with whitespace |
| Text.TrimPadded | Frontend/src/components/PageComponents/Admin/ProjectsManager.tsx:207 | any whitespace around a core that neither starts nor ends with whitespace is removed, and the core comes back |
| Text.NatToStringInjective | Frontend/src/components/PageComponents/Admin/SkillsManager.tsx:172 | different clock values print as different decimal strings |
| Text.Split | Frontend/src/utils/generateBlogSEO.ts:143 | `split(sep)`: never empty; no piece contains the separator; the first piece is a prefix of the input with no occurrence starting inside it, so the first cut is at the leftmost occurrence; joining the pieces gives the input back (SplitJoinRoundTrip) |
| Text.SplitJoinRoundTrip | Frontend/src/utils/generateBlogSEO.ts:143 | joining the pieces of a split with its separator gives the string back |
| Text.Join | Frontend/src/utils/generateBlogSEO.ts:200 | `join(sep)`: the pieces with the separator between them, the partner of Split |
| Text.SplitSpaceRuns | Frontend/src/utils/generateBlogSEO.ts:208 | `split(/\s+/)`: never empty, and no piece holds whitespace; the exact pieces are given by SplitSpaceRunsPadded and SplitSpaceRunsInner |
| Text.SplitOnePiece | Frontend/src/utils/generateBlogSEO.ts:143 | a split gives one piece exactly when the separator does not occur |
| Text.SplitTwoPieces | Frontend/src/utils/cloudinary.ts:8-10 | two pieces are the text before and after the one cut: the input is first piece, separator, second piece |
| Text.SplitTwoOccurrences | Frontend/src/utils/cloudinary.ts:8-10 | two non-overlapping occurrences of the separator give at least three pieces |
| Text.SplitSpaceRunsInner | Frontend/src/utils/generateBlogSEO.ts:208 | the first piece is empty exactly when the input is empty or starts with whitespace, and no piece but the first and the last is empty |
| Text.SplitSpaceRunsOfWords | Frontend/src/utils/generateBlogSEO.ts:208 | words joined by whitespace, with trailing whitespace or not, split back into the words, plus one empty piece exactly when trailing whitespace is present |
| Text.SplitSpaceRunsPadded | Frontend/src/utils/generateBlogSEO.ts:208 | whitespace around words joined by whitespace gives the words, with one empty piece in front when there is leading whitespace and one at the end when there is trailing whitespace |
| Text.SplitSpaceRunsBlank | Frontend/src/utils/generateBlogSEO.ts:208 | an all-whitespace text splits into one empty piece, or two when it is not empty |
| Text.NonEmpty | Frontend/src/utils/generateBlogSEO.ts:208 | `filter(w => w.length > 0)`: the result holds only non-empty pieces, all taken from the input, and keeps every non-empty piece |
| Text.NonEmptyAppend | Frontend/src/utils/generateBlogSEO.ts:208 | the filter of a concatenation is the concatenation of the filters, so order is kept |
| Text.NonEmptyAll | Frontend/src/utils/generateBlogSEO.ts:208 | a list of non-empty pieces passes the filter unchanged |

## Left out

- Rendering, styling, animation and JSX layout are left out. So are the SEO component, the blog pages' markup and the PDF.js canvas drawing.
- The CV viewer's page count comes from the PDF library; it is a constructor parameter that does not change.
- I/O and foreign calls become parameters, because their behaviour is not part of this code:
  - HTTP calls and database queries;
  - bcrypt hashing and checking;
  - JWT signing and validation;
  - generated ids and clocks;
  - the Cloudinary SDK;
  - `JSON.stringify`;
  - the `<img src>` regular expression;
  - `new Date(...)` parsing;
  - the struct-tag validator's verdict on project, setup and login requests. The blog request's tags are modelled, except whether a meta image is a URL, which is a parameter.
- Promises and timing:
  - each store action is a `Begin` call followed by a `...Done` call that receives the reply;
  - interleavings of concurrent actions are not modelled;
  - the unawaited logout after a failed refresh is returned as the token that logout would send.
- Repository errors other than "not found", and failures to marshal JSON, are left out: the model's repository is a map that cannot fail.
- BlogService.Service.GetByID, GetBySlug and Delete only delegate to the repository. The same holds for ProjectService.Service.GetByID and Delete, and for AuthService.Service.ValidateAccessToken and CleanupExpiredTokens. To model them would be to model the SQL.
- The repository's paging of the returned rows is left out; the listing methods return only the metadata.
- CloudinaryService.DeleteImage and the service constructor only call the SDK.
- Config.LoadSettings keeps the duration and integer settings as text: `time.ParseDuration`, `strconv.Atoi` and `strconv.ParseInt` are not modelled. The Cloudinary credentials are not modelled either.
- generateBlogListSEO returns constant data.
- `toLowerCase` and `strings.ToLower` are modelled on ASCII letters only. JavaScript's UTF-16 strings and Go's byte strings are both `seq<char>`.
- AuthService.Service.Login: refresh tokens are a map keyed by the token, so storing the same token twice keeps one row, where the table would hold two.
- ExperienceManager.SortedExperiences: one `now` stands for every `new Date()` the comparator makes, and `dateOf` is total. Invalid dates (NaN keys) are not modelled.
- ExperienceManager.ExperienceEditor.HandleEndDateChange requires a role that is not current, because the input is disabled while the role is current.
- AdminLogin clears the store's error when it unmounts; that cleanup is `AuthStore.Session.ClearError`.
- SocialsManager has no search box, so none is modelled.
- CloudinaryUrl.Optimize takes the width and height as natural numbers; JavaScript numbers (fractions, NaN) are not modelled.
- BlogSeo.GenerateBlogSeo leaves out the schema's fixed author, publisher, `@context` and `inLanguage` fields.
- SocialsManager.Template: the icon markup is a parameter, so its truthiness is not checked. `if (template)` is modelled as "the platform has a template", which holds because every template in the source is a non-empty literal.
- BlogSeo.ImageOf: the `<img src>` match is a parameter whose result is taken as non-empty when present, as the `[^">]+` capture guarantees; the model does not check this.
