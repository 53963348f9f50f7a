# LifeLoop parent-consent workflow in Dafny

LifeLoop lets a student connect an Instagram account so the family can
receive narrated memories. This project models the logic at the centre of
it. Everything else in the application is UI or glue to outside services.

- **The parent-consent workflow.** There are two tables:
  - `user_profiles`, keyed by account id;
  - `parent_confirmations`, keyed by token.

  Two route handlers change them:
  - `POST /api/parent-request` validates the form. It may upload and register a voice sample. It then upserts the profile with the parent flag reset, inserts a pending record that expires three days later, and emails the parent a link.
  - `GET /api/parent-request/confirm?token=…` looks the record up and takes one of its terminal paths. The last path makes two separate writes: it raises the profile's flag, then confirms the record.

  The tables are the fields of the class `ConsentStore.Store`. Each handler is an imperative method on it, with early returns in source order. Each method is proved to leave the tables and to answer exactly as a specification function says: `ParentRequest.RequestStep` and `ParentConfirm.ConfirmStep`. The properties of the workflow are lemmas about those functions.
- **The dashboard's refresh action.** A chain of preconditions, then an ingest call and a process call to the backend, strictly in that order.
- **The dashboard's gallery choices.** Image URL resolution, caption fallback, and the choice between mock and live data.
- **The backend's digest and parent email builders.** Their fallbacks and the rows they assemble.
- **The OAuth callback's redirect decision.**

Every call to the outside world is an input to the model:
- the session and the store's answers;
- object storage, the voice-clone API and the mail API;
- the backend's HTTP replies;
- the fresh token and the clock.

An environment variable is a string, and `""` stands for unset. Every use in the core is a truthiness test or a comparison with `'false'`, so an unset variable and an empty one behave the same.

Files:
- `wrappers.dfy`: `Option`.
- `strings.dfy`:
  - JavaScript `trim`, `\s` and truthiness;
  - `replace(/\/$/, '')` and the URL join;
  - decimal rendering of a timestamp;
  - `encodeURIComponent`.
- `consent_tables.dfy`: the rows, the table invariant and the two confirmation updates.
- `parent_confirm.dfy`, `parent_request.dfy`: the two handlers as functions, with their lemmas.
- `consent_store.dfy`: the tables as a class, and the handlers as methods.
- `consent_properties.dfy`: properties spanning both handlers.
- `media_refresh.dfy`, `dashboard.dfy`, `email_templates.dfy`, `auth_callback.dfy`: the smaller pieces.

The confirmation is not all-or-nothing. The profile flag is written first. It stays written when the record update then fails, so a rejected second write leaves a confirmed profile beside a pending record. `ConsentProperties.ConfirmNotAtomic` states this.

## Model

| member | source | states |
|---|---|---|
| Strings.Trim | frontend/life-loop/app/api/parent-request/route.ts:217-218 | `trim()` returns the slice of the input that follows its leading whitespace, and only whitespace follows that slice. The result has no whitespace at either end. It is empty exactly when the input is all whitespace. An already trimmed string is unchanged. |
| Strings.TrimIdempotent | frontend/life-loop/app/dashboard/actions.ts:11-15 | Trimming twice gives the same result as trimming once. |
| Strings.StripTrailingSlash | frontend/life-loop/app/api/parent-request/route.ts:256 | `replace(/\/$/, '')` removes exactly one trailing `/` when there is one. Otherwise the string is unchanged. |
| Strings.JoinUrl | frontend/life-loop/app/dashboard/actions.ts:58-60 | The result is the base with one trailing slash removed, then `/`, then the path, and has the length of those three parts. |
| Strings.JoinUrlSingleSeparator | frontend/life-loop/app/api/parent-request/route.ts:47 | When the base does not end in `//`, the part of the joined URL before the path ends in one `/` that is not preceded by another `/`. |
| Strings.NatToDecimal | frontend/life-loop/app/api/parent-request/route.ts:36 | A timestamp renders as decimal digits with no leading zero. |
| Strings.DecimalRoundTrip | frontend/life-loop/app/api/parent-request/route.ts:36 | Those digits read back as the timestamp. |
| Strings.EncodeUriComponent | frontend/life-loop/app/api/parent-request/route.ts:256 | The encoded token holds only unreserved characters and `%`. A token made only of unreserved characters is unchanged. |
| Strings.EncodeUriComponentDecodes | frontend/life-loop/app/api/parent-request/route.ts:256 | Percent-decoding the encoded token gives back the token's UTF-8 bytes. So no two tokens with different bytes share a link. |
| Strings.PercentEscapesDecode | frontend/life-loop/app/api/parent-request/route.ts:256 | Each byte's `%XX` escape, written with upper-case hex digits, decodes back to that byte. |
| ConsentTables.SetParentConfirmed | frontend/life-loop/app/api/parent-request/confirm/route.ts:74-77 | Only the flag of the given profile is raised. Every other column and row is unchanged. An id that matches no row changes nothing. |
| ConsentTables.MarkConfirmed | frontend/life-loop/app/api/parent-request/confirm/route.ts:84-90 | Only the record of the token changes: it becomes `confirmed` with `responded_at` = now, and its owner, email and expiry are kept. |
| ParentConfirm.RenderHtml | frontend/life-loop/app/api/parent-request/confirm/route.ts:5-37 | Status 200 exactly when `success`, and 400 otherwise. A success page has the "Consent confirmed!" heading in #16a34a, a failure page the "We hit a snag" heading in #dc2626, and the message is shown as given. |
| ParentConfirm.Message | frontend/life-loop/app/api/parent-request/confirm/route.ts:45-98 | Each of the eight paths has its own non-empty message, written as in the source. |
| ParentConfirm.MessagesDistinct | frontend/life-loop/app/api/parent-request/confirm/route.ts:45-98 | No two paths show the same message. |
| ParentConfirm.PageFor | frontend/life-loop/app/api/parent-request/confirm/route.ts:44-100 | The page is 200 exactly on the already-confirmed and newly-confirmed paths, 400 on every other path, and shows that path's message. |
| ParentConfirm.ConfirmStep | frontend/life-loop/app/api/parent-request/confirm/route.ts:40-101 | Each path is taken exactly when its condition holds, in source order: missing token, lookup error, unknown token, already confirmed, expired (`expires_at < now`; a null expiry never expires), profile write rejected, record write rejected, confirmed. A lookup error and a rejected profile write are each characterized in both directions. No path writes before the profile write is accepted. A rejected record write leaves the flag raised and the record pending. Success raises the owner's flag and marks the record confirmed at `now`, and nothing else changes. |
| ParentConfirm.ConfirmRaisesFlag | frontend/life-loop/app/api/parent-request/confirm/route.ts:74-82 | On valid tables, once the profile update is accepted, the record's owner has a profile and its parent flag is raised. |
| ParentConfirm.ConfirmKeepsValid | frontend/life-loop/app/api/parent-request/confirm/route.ts:74-100 | A visit never revokes anything: no row disappears, a confirmed record keeps its first response time, and a raised flag stays raised. It keeps every record attached to a profile, with a response time exactly when confirmed. |
| ParentConfirm.ConfirmedLinkReplays | frontend/life-loop/app/api/parent-request/confirm/route.ts:65-67 | A confirmed record's link answers 200 again and writes nothing. |
| ParentConfirm.ReplayAfterConfirmation | frontend/life-loop/app/api/parent-request/confirm/route.ts:65-67 | Any number of later visits to a confirmed link leave the tables unchanged. Each visit answers "already confirmed" when the lookup works, and a lookup error otherwise. |
| ParentConfirm.ConfirmTwice | frontend/life-loop/app/api/parent-request/confirm/route.ts:65-100 | After a successful confirmation, a second visit also succeeds and writes nothing. |
| ParentConfirm.RetryAfterRecordWriteError | frontend/life-loop/app/api/parent-request/confirm/route.ts:74-100 | After a rejected record write, a later visit before expiry with both writes accepted completes the transition. |
| ParentRequest.Validate | frontend/life-loop/app/api/parent-request/route.ts:160-184 | The request proceeds exactly when the user is signed in, both text fields are non-empty strings and consent is the string `"true"`. Otherwise the first failing check answers, in source order: 500 with the auth error's message, 401 `Unauthorized` without a user, then 400 with the username message, the email message, or the consent message. |
| ParentRequest.SanitizeName | frontend/life-loop/app/api/parent-request/route.ts:35 | `replace(/\s+/g, '_')` leaves no whitespace, is never longer than the input, and is non-empty for a non-empty name. A name without whitespace is unchanged. |
| ParentRequest.SpaceRunBecomesUnderscore | frontend/life-loop/app/api/parent-request/route.ts:35 | A whole whitespace run becomes a single `_`, whatever its length. The text before the run is kept, and the text after it is sanitized in turn. |
| ParentRequest.StoredName | frontend/life-loop/app/api/parent-request/route.ts:35 | An empty name is stored as `voice-sample`; any other name is stored with each whitespace run turned into `_`. The stored name is never empty and has no whitespace. |
| ParentRequest.UploadKey | frontend/life-loop/app/api/parent-request/route.ts:36 | The key is `voice-samples/{userId}/`, then the timestamp's digits, `-`, and the stored name. |
| ParentRequest.UploadKeyTimestamp | frontend/life-loop/app/api/parent-request/route.ts:36 | The timestamp segment of the key is followed by `-` and reads back as the upload time. |
| ParentRequest.UploadVoiceSample | frontend/life-loop/app/api/parent-request/route.ts:14-49 | The upload succeeds exactly when all five storage settings are present and the PUT is accepted. The public URL is the public base with one slash stripped, then `/`, then the key. |
| ParentRequest.RegisterVoice | frontend/life-loop/app/api/parent-request/route.ts:51-88 | There is no voice id without an API key or when the call fails. With a key and an accepted reply, the id is the reply's `voice_id`, or none when the reply has none. |
| ParentRequest.ExistingVoice | frontend/life-loop/app/api/parent-request/route.ts:196-197 | The voice columns of the stored profile, or both null when there is no profile. |
| ParentRequest.ResolveVoice | frontend/life-loop/app/api/parent-request/route.ts:196-213 | Without a file, the existing voice is kept. With a file, the step fails exactly when the upload fails. On success the sample URL is the uploaded URL, and the profile id is the new id when the clone returned one, else the existing id. |
| ParentRequest.ShapeUpdates | frontend/life-loop/app/api/parent-request/route.ts:215-228 | The update always carries the id, the trimmed handle, the trimmed email and a cleared flag. It carries each voice column exactly when that column is truthy. |
| ParentRequest.Upsert | frontend/life-loop/app/api/parent-request/route.ts:230-234 | The row is inserted or merged. The columns the update carries are overwritten, the voice columns it leaves out keep their stored values, and other rows are untouched. |
| ParentRequest.PendingRecord | frontend/life-loop/app/api/parent-request/route.ts:236-245 | The new record is pending and unanswered, has the trimmed parent email, and expires exactly 259 200 000 ms after `now`. |
| ParentRequest.ConfirmationLink | frontend/life-loop/app/api/parent-request/route.ts:256 | The link is the base with one trailing slash removed, then `/api/parent-request/confirm?token=`, then the encoded token. |
| ParentRequest.LinkCarriesUuidToken | frontend/life-loop/app/api/parent-request/route.ts:256 | A token of unreserved characters, as a UUID is, appears in the link verbatim. |
| ParentRequest.SendParentEmail | frontend/life-loop/app/api/parent-request/route.ts:90-149 | The mail is sent exactly when the three mail settings are present and the API accepts it. It goes to the given address from the configured sender, with the handle in the subject and the link in the body. |
| ParentRequest.NotifyParent | frontend/life-loop/app/api/parent-request/route.ts:251-277 | A missing `APP_BASE_URL` or a failed email answers 500. The answer is 200 exactly when the email went out; the 200 answer carries the voice columns and the expiry, and the email carries the link to the token. |
| ParentRequest.Persisted | frontend/life-loop/app/api/parent-request/route.ts:230-249 | A rejected upsert writes nothing. A rejected insert keeps the upsert. With both accepted, the only new record is the pending record under the fresh token. |
| ParentRequest.WriteAndNotify | frontend/life-loop/app/api/parent-request/route.ts:230-277 | The writes come first and stay when a later step fails. The answer after both writes is the notification's. |
| ParentRequest.RequestStep | frontend/life-loop/app/api/parent-request/route.ts:151-278 | A rejected validation answers before any read or write. A failed profile read answers 500 with the store's message. A failed upload of a submitted file then answers 500 with "Voice sample upload failed.". Nothing is written before the upsert is issued. The answer is 200 exactly when an email was sent. Every other answer is an error with status 400, 401 or 500. |
| ParentRequest.RequestWrites | frontend/life-loop/app/api/parent-request/route.ts:186-249 | The profiles change only through an issued, accepted upsert. The confirmations change only by the new pending record, and only after both writes were accepted. |
| ParentRequest.RequestKeepsRecords | frontend/life-loop/app/api/parent-request/route.ts:236-249 | A request keeps every earlier record, unchanged. |
| ParentRequest.WriteAndNotifyKeepsValid | frontend/life-loop/app/api/parent-request/route.ts:230-249 | The writes keep every record attached to a profile, with a response time exactly when confirmed. |
| ParentRequest.RequestKeepsValid | frontend/life-loop/app/api/parent-request/route.ts:151-278 | A whole request keeps that invariant. |
| ParentRequest.RequestSuccess | frontend/life-loop/app/api/parent-request/route.ts:236-277 | The answer is 200 exactly when validation, the voice step, both writes, `APP_BASE_URL`, the mail settings and delivery all succeed. The 200 answer and the pending record both expire three days after `now`, and the email goes to the trimmed parent address with the link to the new token. |
| ParentRequest.VoiceCarriedOver | frontend/life-loop/app/api/parent-request/route.ts:196-228 | Without a new voice file, the stored voice columns survive the upsert unchanged. |
| ParentRequest.UpsertResetsConsent | frontend/life-loop/app/api/parent-request/route.ts:215-234 | The upsert clears the parent flag even for an already confirmed student, and stores the trimmed handle. That handle is empty for one made only of whitespace. |
| ConsentStore.Store.RequestConsent | frontend/life-loop/app/api/parent-request/route.ts:151-278 | The method leaves the tables and answers exactly as `RequestStep`, keeps the table invariant, and answers 200 exactly when it sent the email. |
| ConsentStore.Store.PersistAndNotify | frontend/life-loop/app/api/parent-request/route.ts:215-277 | The second half of the handler, in place, leaves the tables and answers exactly as `WriteAndNotify`. |
| ConsentStore.Store.Persist | frontend/life-loop/app/api/parent-request/route.ts:230-249 | The upsert and the insert, in place, leave the tables and report the failure exactly as `Persisted`. |
| ConsentStore.Store.BuildUpdates | frontend/life-loop/app/api/parent-request/route.ts:215-228 | The conditionally extended `updates` record equals `ShapeUpdates`. |
| ConsentStore.Store.Confirm | frontend/life-loop/app/api/parent-request/confirm/route.ts:40-101 | The method leaves the tables exactly as `ConfirmStep`, answers with that path's page, and keeps the table invariant. |
| ConsentProperties.RequestThenConfirm | frontend/life-loop/app/api/parent-request/confirm/route.ts:69-100 | After a request answered 200, a click before expiry with the store working confirms the parent: the flag is raised, and the record is confirmed at the time of the click. |
| ConsentProperties.RequestThenLateClick | frontend/life-loop/app/api/parent-request/confirm/route.ts:69-72 | A click after the three-day window shows the expired page and changes nothing. |
| ConsentProperties.ConfirmNotAtomic | frontend/life-loop/app/api/parent-request/confirm/route.ts:74-95 | When the record write fails, the parent sees a failure page, the profile is already confirmed, and the record is still pending. |
| ConsentProperties.StaleTokenStillConfirms | frontend/life-loop/app/api/parent-request/route.ts:236-249 | A second request does not retire the first link. An earlier pending record still confirms afterwards and raises the reset flag. |
| ConsentProperties.StaleReplayClaimsSuccess | frontend/life-loop/app/api/parent-request/confirm/route.ts:65-67 | After a new request resets the flag, an old confirmed link still shows the success page while the profile stays unconfirmed. |
| MediaRefresh.BackendBaseUrl | frontend/life-loop/app/dashboard/actions.ts:10-16 | The first non-empty of the two variables is chosen, then trimmed. The result is empty exactly when the chosen value is all whitespace. |
| MediaRefresh.WhitespacePrimaryHidesSecondary | frontend/life-loop/app/dashboard/actions.ts:10-16 | A whitespace-only primary value gives `''` even when the secondary value is set. |
| MediaRefresh.CheckPreconditions | frontend/life-loop/app/dashboard/actions.ts:26-56 | The action is ready exactly when there is a user, a profile with a handle, parent consent and a base URL. Otherwise the first failing check, in source order, gives the error. The last check is an empty base URL, which gives the "not configured" error. |
| MediaRefresh.FailureReason | frontend/life-loop/app/dashboard/actions.ts:72-81 | A truthy JSON `error` wins. Otherwise the status text is used. |
| MediaRefresh.InsertedCount | frontend/life-loop/app/dashboard/actions.ts:83-89 | `inserted` when present, 0 when it is absent or the body does not parse. |
| MediaRefresh.ProcessedCount | frontend/life-loop/app/dashboard/actions.ts:112-118 | The length of `processed` when present, 0 when it is absent or the body does not parse. |
| MediaRefresh.RefreshInstagramMedia | frontend/life-loop/app/dashboard/actions.ts:18-128 | A failed precondition makes no call. Ingest comes first, with limit 12, to the joined URL. Process is called exactly when ingest was ok. The errors are prefixed `Ingestion failed:` and `Processing failed:`. Success requires both replies to be ok and reports both counts. |
| Dashboard.MediaBaseUrl | frontend/life-loop/app/dashboard/page.tsx:63-66 | The first variable when it is non-empty, otherwise the second. The result is `''` only when both are empty. |
| Dashboard.ResolveImageUrl | frontend/life-loop/app/dashboard/page.tsx:71-87 | An `http` storage key is used verbatim. A relative key is joined to a non-empty base with one slash stripped. Otherwise the source URL is used, or `''`. |
| Dashboard.EmptyImageOnlyWithoutKeyOrSource | frontend/life-loop/app/dashboard/page.tsx:71-87 | The image URL is empty exactly when the row has neither a usable key nor a source URL. |
| Dashboard.MapRowToMediaItem | frontend/life-loop/app/dashboard/page.tsx:89-100 | The id, confidence, audio URL and processing time are carried over. The caption is never empty: the pending text replaces a null or empty one. |
| Dashboard.MapRows | frontend/life-loop/app/dashboard/page.tsx:260 | One item per row, in order. |
| Dashboard.MockMedia | frontend/life-loop/app/dashboard/page.tsx:24-55 | There are three mock items. |
| Dashboard.PreferMockData | frontend/life-loop/app/dashboard/page.tsx:68-69 | Mock data is preferred unless the variable is exactly `false`, so an unset variable keeps the mock gallery. |
| Dashboard.OnlyExactFalseSelectsLive | frontend/life-loop/app/dashboard/page.tsx:68-69 | The comparison is exact: `FALSE`, `false ` with a space, `true` and `0` all keep the mock gallery, and only `false` selects live data. |
| Dashboard.SelectGallery | frontend/life-loop/app/dashboard/page.tsx:244-265 | Mock items are shown exactly when mock data is preferred or no rows were fetched; otherwise the mapped rows are shown. A fetch error is kept exactly when live data was requested and the query failed, and it is the query's own message. The gallery is never empty. |
| EmailTemplates.IntroName | backend/api/email_templates.py:9 | The student's name when it is truthy, else `your student`. |
| EmailTemplates.Or | backend/api/email_templates.py:16 | Python `a or b` on optional strings: `a` when it is truthy, otherwise `b`. |
| EmailTemplates.FormatItem | backend/api/email_templates.py:13-49 | Each row has fallbacks: the default caption, the image falling back to `#`, and the date from `processed_at` or else `created_at`, with the raw text when it does not parse. The audio section appears exactly when `audio_url` is truthy. |
| EmailTemplates.RenderDigestEmail | backend/api/email_templates.py:5-57 | One row per item, in input order. An empty list gives exactly the placeholder row, and the placeholder appears only then. |
| EmailTemplates.RenderParentConfirmationEmail | backend/api/email_templates.py:100-116 | The Instagram line appears exactly when the handle is truthy. The name falls back to `your student`. |
| AuthCallback.TargetPath | frontend/life-loop/app/auth/callback/route.ts:9-35 | No code or a failed exchange leads to `/auth/auth-code-error`. A signed-in user without a profile row or handle leads to `/complete-profile`. Otherwise the target is `next`. |
| AuthCallback.NextParam | frontend/life-loop/app/auth/callback/route.ts:7 | `next` defaults to `/`. |
| AuthCallback.AsWritten | frontend/life-loop/app/auth/callback/route.ts:31 | The target as written is the origin followed verbatim by the chosen path. |
| AuthCallback.Redirect | frontend/life-loop/app/auth/callback/route.ts:4-36 | The corrected target: the origin followed by a path that always starts with `/`. |
| AuthCallback.RedirectKeepsHost | frontend/life-loop/app/auth/callback/route.ts:31 | For every code, `next` and store answer, the corrected redirect keeps the host of the origin. |
| AuthCallback.AsWrittenUserInfoRedirect | frontend/life-loop/app/auth/callback/route.ts:31 | As written, a `next` of `@` followed by a host makes that host the browser's destination. |
| AuthCallback.AsWrittenLeavesOrigin | frontend/life-loop/app/auth/callback/route.ts:31 | Concretely, `https://lifeloop.app` with `next=@evil.example` goes to host `evil.example`. |

## Left out

- Outside services are inputs (`RequestIo`, `ConfirmIo`, `CallbackIo`, the HTTP replies), not modelled calls:
  - Supabase auth and queries;
  - S3/R2 `PutObjectCommand`;
  - the ElevenLabs and Mailgun `fetch` calls;
  - the backend's ingest and process endpoints.
- `crypto.randomUUID` and `Date.now` are inputs. A fresh token is the precondition that no record holds it yet. One `now` serves both the expiry and `responded_at`.
- Timestamps are milliseconds. The ISO-8601 strings that `toISOString` stores, and their parsing, are not modelled.
- The confirm handler updates the record by its row `id`. The model keys records by their unique token, which selects the same row.
- `formatConfidence` (floating-point rounding) and `formatProcessedAt` are not modelled. Python's `datetime.fromisoformat`/`strftime` is an opaque function argument of `FormatItem`; only its parse-failure fallback is modelled.
- The HTML and CSS text of the pages and emails is not modelled. So are the email's text and HTML bodies and the `Content-Type` of the upload. The model keeps the fragments and choices that vary.
- Exceptions escaping the code are not modelled:
  - `request.formData()` failing;
  - a `fetch` in `refreshInstagramMedia` throwing;
  - a non-string `error` or non-number `inserted` in a JSON body;
  - non-string values in the digest's item dictionaries.
- `revalidatePath('/dashboard')`, logging and `console` output have no effect on the modelled state and are left out.
- Concurrency is not modelled. In particular, two simultaneous confirmations of one token are not.
- Strings.EncodeUriComponentDecodes: stops at the bytes. Decoding UTF-8 back to characters is not modelled, so the model does not prove that distinct strings encode differently.
- AuthCallback.Host: models only the host of a special-scheme URL. It is the text between `://` and the first `/ ? # \`, after the last `@`. Percent-decoding, IDNA and ports are not modelled.
- UI files and configuration are not part of this model:
  - complete-profile, signup, login, the home page, dashboard loading/error, the refresh and sign-out buttons, and the chat screen;
  - `backend/api/server.py`, an S3 passthrough;
  - `backend/api/main.go`, a single Gemini call;
  - `auth.ts` and `next.config.ts`.

## Findings

| source | as written | input that shows it | evidently intended | confidence | as-written member | corrected member |
|---|---|---|---|---|---|---|
| frontend/life-loop/app/auth/callback/route.ts:31 | redirects to `${origin}${next}` with `next` taken verbatim from the query | `GET https://lifeloop.app/auth/callback?code=c&next=@evil.example` for a signed-in user with a handle: the target `https://lifeloop.app@evil.example` has host `evil.example` | follow `next` only as a path on the same site, so the target keeps the origin's host | not executed | AuthCallback.AsWrittenLeavesOrigin | AuthCallback.RedirectKeepsHost |
