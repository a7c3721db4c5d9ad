# im-cms client logic in Dafny

im-cms is an administration console for an instant-messaging backend. Most
of its pages fetch a page of records and show it in a table. Below that
plumbing, the browser code holds a good deal of sequential logic, and this
project models that logic and proves properties of it:

- **Chunked upload** (`utils/fileUpload.ts`). A file is cut into fixed
  1 MiB parts. Each part is hashed with MD5, and the comma-joined part
  digests are hashed again into a content address. Then a strictly
  sequential handshake runs: part size, initiate, then either the
  deduplication shortcut or a PUT followed by complete, and finally an
  optional account update. The model covers `uploadAvatar` and
  `uploadGenericFile` too.
- **Selection state.** This covers the notification recipients, the
  owner/admin/member pickers of group creation and group settings (both
  page variants and the drawer's disabled-option rules), the default-friend
  picker, and the force-logout drawer.
- **Conversation merge.** Four result pages are concatenated. The first
  message per `serverMsgID` is kept, and the result is sorted by `sendTime`.
- **Request builders.** These are the message searches, the
  profile-update diff, the notification payload, the user create/update
  payloads, the log search, and the password change.
- **Validators and label maps.** These are the password, phone, nickname
  and avatar checks, online status, roles, join sources, message status,
  avatar initials, and download file names.

Remote endpoints are parameters of the model: a reply is either
`Answered(errCode, errMsg, data)` or `Threw(message)` (`Api.Reply`).
Methods that call several endpoints also return the calls they made, in
order. MD5 is a parameter, `Md5.Hasher`, whose every output is a 32-digit
lowercase hexadecimal digest. `JSON.parse` results, clocks, UUIDs and image
sizes are passed in as values. A React component whose handlers update
component state becomes a `class`: each `useState` is a field, and each
handler is a method that `modifies this`. JavaScript's `||`, `trim`,
`toUpperCase` and `split`/`join` are written out in `JsText` and
`JsValues`.

Where the design description and the code disagree, the model follows the
code:

- Parts are hashed with a fixed 1 MiB size before the server is asked for
  its part size, and the server's size is passed on unused.
- An empty file gives zero parts, not one empty part. Its combined hash is
  therefore the MD5 of the empty string.

## Model

| member | source | states |
|---|---|---|
| FileHashing.PartCountBounds | im-cms/src/utils/fileUpload.ts:37-39 | `ceil(size/partSize)` parts: they reach the end of the file, the last one starts inside it, and there are zero parts exactly when the file is empty |
| FileHashing.PartStartsInside | im-cms/src/utils/fileUpload.ts:41-44 | every part index below the part count starts strictly inside the file |
| FileHashing.PartDigests | im-cms/src/utils/fileUpload.ts:37-50 | one digest per part, and each is a 32-digit lowercase hex MD5 |
| FileHashing.CalculatePartMD5s | im-cms/src/utils/fileUpload.ts:37-50 | the loop yields, in order, the MD5 of bytes `[i*partSize, min((i+1)*partSize, size))` for each part `i` |
| FileHashing.PartsCoverFile | im-cms/src/utils/fileUpload.ts:41-44 | concatenating the parts in order gives back the whole file, so the parts are contiguous, disjoint and complete |
| FileHashing.PartLengths | im-cms/src/utils/fileUpload.ts:41-44 | every part is non-empty and at most `partSize` long, and every part but the last is exactly `partSize` long |
| FileHashing.CombinedHash | im-cms/src/utils/fileUpload.ts:26-28 | the content address is an MD5 digest (of the comma-joined part digests) |
| FileHashing.CalculateFileHash | im-cms/src/utils/fileUpload.ts:20-34 | parts are hashed with the fixed 1 MiB size; the hash is MD5 of the joined part digests, not of the bytes; an empty file gives no parts and MD5("") |
| FileHashing.CombinedInputDeterminesParts | im-cms/src/utils/fileUpload.ts:26-28 | the comma-joined text determines the part-digest list, because digests contain no comma |
| Md5.HashText | im-cms/src/utils/fileUpload.ts:94-96 | hashing a string yields a 32-digit lowercase hex digest (of its UTF-8 bytes) |
| Md5.Utf8Encode | im-cms/src/utils/fileUpload.ts:94-96 | the UTF-8 encoding is at least as long as the text |
| Md5.Utf8EncodeInjective | im-cms/src/utils/fileUpload.ts:94-96 | two strings with the same UTF-8 bytes are equal, so the hashed input determines the text |
| Md5.AsciiEncoding | im-cms/src/utils/fileUpload.ts:94-96 | ASCII text encodes to one byte per character, equal to the code point |
| FileUpload.RemoveQuotes | im-cms/src/utils/fileUpload.ts:113 | the result contains no `"` and is no longer than the input |
| FileUpload.RemoveQuotesKeepsPlainTag | im-cms/src/utils/fileUpload.ts:113 | an ETag without quotes is returned unchanged |
| FileUpload.RemoveQuotesIdempotent | im-cms/src/utils/fileUpload.ts:113 | stripping quotes twice is the same as stripping them once |
| FileUpload.ETag | im-cms/src/utils/fileUpload.ts:113 | the ETag is quote-free, and it is `''` when the header is missing |
| FileUpload.ErrorMessage | im-cms/src/utils/fileUpload.ts:130-252 | every failure carries a non-empty message, `error.message \|\| '上传失败'`; an exception, and the TypeError a missing upload target raises, show their own message when they have one |
| FileUpload.FailureText | im-cms/src/utils/fileUpload.ts:246-254 | the text shown is the error's message, or `上传失败` when there is none; it is never empty |
| FileUpload.UpdateCalls | im-cms/src/utils/fileUpload.ts:225-238 | at most one account update follows an upload |
| FileUpload.UpdateAccountIfAsked | im-cms/src/utils/fileUpload.ts:225-244 | the update runs iff `updateAccount` and a non-empty `userID`, with `faceURL` the final URL; a failing update fails the upload |
| FileUpload.ExpectedResult | im-cms/src/utils/fileUpload.ts:130-254 | the result of the first failing step, or the final URL; a success has no error and a failure an empty URL |
| FileUpload.ExpectedResultSucceedsIff | im-cms/src/utils/fileUpload.ts:130-244 | an upload succeeds iff every step it reaches succeeds, and then its URL is the initiate answer's URL or else complete's |
| FileUpload.PutAndComplete | im-cms/src/utils/fileUpload.ts:193-222 | the PUT goes to the first presigned URL only; complete follows only a successful PUT and sends the computed part MD5s, not the ETag; a URL is returned iff the PUT is answered `ok` and complete succeeds, and it is complete's URL; each failing step gives its own error |
| FileUpload.Handshake | im-cms/src/utils/fileUpload.ts:118-256 | calls run in order from part size, and the first failing step ends the upload: a failed part size or initiate, a rejected or not-`ok` PUT (no complete), a failed complete (no account update), each with `{url:'', success:false}`; a URL from initiate is returned unchanged with no PUT and no complete; otherwise PUT then complete with the part MD5s; the result is exactly `ExpectedResult` of the replies |
| FileUpload.UploadFile | im-cms/src/utils/fileUpload.ts:118-256 | the file hash is computed first with fixed 1 MiB parts, then the handshake's guarantees (abort on the first failing step) and its exact result hold for that hash |
| FileUpload.UploadAvatar | im-cms/src/utils/fileUpload.ts:258-266 | the object name is `userID/filename`; the same call trace as `uploadFile` (part size first, initiate with the combined hash of the 1 MiB part digests, a failed step ends the upload, no complete after a failed PUT, no update after a failed complete); the account update for that user and the final URL follows only a successful upload; the result is the handshake's for that configuration |
| FileUpload.UploadGenericFile | im-cms/src/utils/fileUpload.ts:268-274 | the object name is the given one; the same call trace as `uploadFile` (part size first, initiate with the combined hash of the 1 MiB part digests, a failed step ends the upload, no complete after a failed PUT); no account update is ever made; the result is the handshake's for that configuration |
| Api.PageField | im-cms/src/pages/im/message/user_message/index.tsx:32-33 | `value || fallback`: the page value unless missing or 0 |
| Api.ToListResult | im-cms/src/pages/im/message/user_message/index.tsx:70-94 | success iff `errCode` 0 with data; the rows and total default to `[]` and 0; on failure the result is `{data: [], total: 0}` |
| Api.RequestNotice | im-cms/src/pages/im/message/user_message/index.tsx:182-191 | the success text on `errCode` 0, `errMsg` or the failure text otherwise, and the failure text plus `，请重试` when the request throws |
| UserMessage.BuildSearchQuery | im-cms/src/pages/im/message/user_message/index.tsx:20-68 | pagination defaults to 1 and 10; recvID, sendID and content are sent iff non-blank; contentType iff a non-zero number; sessionType iff a number; sendTime iff a date is chosen, as YYYY-MM-DD |
| UserMessage.ParseMessageContent | im-cms/src/pages/im/message/user_message/index.tsx:104-167 | the raw content comes back when parsing fails or the type is unlisted; a listed type gives its label |
| UserMessage.LabelsDistinct | im-cms/src/pages/im/message/user_message/index.tsx:108-163 | no two content types share a label |
| UserMessage.PreviewDeterminesType | im-cms/src/pages/im/message/user_message/index.tsx:104-167 | two labelled previews that read the same have the same content type |
| UserMessage.RevokeRequestFor | im-cms/src/pages/im/message/user_message/index.tsx:171-180 | the sender is the userID, the record's seq is sent, and the conversationID is `si_<sendID>_<recvID>` |
| UserMessage.ConversationIDDeterminesPair | im-cms/src/pages/im/message/user_message/index.tsx:174 | for sender IDs without `_`, `si_<send>_<recv>` determines both IDs |
| UserMessage.ConversationQueries | im-cms/src/pages/im/message/user_message/index.tsx:195-237 | four queries, for both directions (the first and last alike, the middle two alike), each for page 1 of 50 |
| UserMessage.FirstFailure | im-cms/src/pages/im/message/user_message/index.tsx:266 | finds the first reply with a non-zero `errCode`, or -1 when all succeeded |
| UserMessage.MergeConversation | im-cms/src/pages/im/message/user_message/index.tsx:239-275 | any failing reply empties the conversation with the first failure's message; otherwise the messages are the first per `serverMsgID`, sorted by `sendTime` |
| UserMessage.MergedConversationSpec | im-cms/src/pages/im/message/user_message/index.tsx:244-261 | the merge has no duplicate `serverMsgID`, keeps each id's first occurrence, takes every element from the replies, and is sorted ascending |
| UserMessage.SenderInitial | im-cms/src/pages/im/message/user_message/index.tsx:98-101 | `U` for an empty name, otherwise the first character upper-cased |
| ChatLogs.FindIndex | im-cms/src/pages/im/message/user_message/index.tsx:252-254 | the index of the first message with that id, or -1 |
| ChatLogs.KeepFirstPerIdSpec | im-cms/src/pages/im/message/user_message/index.tsx:252-254 | `filter(index === findIndex)` leaves ids distinct, keeps only first occurrences, and keeps every id |
| ChatLogs.SortByTime | im-cms/src/pages/im/message/user_message/index.tsx:257-261 | the result is sorted ascending by `sendTime` and is a permutation of the input |
| ChatLogs.SortKeepsIdsDistinct | im-cms/src/pages/im/message/user_message/index.tsx:252-261 | sorting preserves distinct ids |
| ChatLogs.SortIsStable | im-cms/src/pages/im/message/user_message/index.tsx:257-261 | the sort is stable, as `Array.prototype.sort` is: for every `sendTime`, the records sent at that time come out in their input order |
| Initials.PlainInitial | im-cms/src/pages/im/message/user_message/index.tsx:98-101 | the fallback for an empty name, otherwise one character that is the first one upper-cased |
| Initials.CjkAwareInitial | im-cms/src/pages/chat/user/user_list/index.tsx:383-391 | the fallback for an empty name; if any CJK character occurs, the first character unchanged; otherwise the first character upper-cased |
| Initials.InitialsDifferOnlyOnMixedNames | im-cms/src/pages/chat/user/user_list/index.tsx:383-391 | the two initial rules differ exactly on names with a lower-case first letter and a CJK character |
| DayFormat.FormatReadsBack | im-cms/src/pages/im/message/group_message/index.tsx:22-29 | `YYYY-MM-DD` has length 10 with dashes at 4 and 7, and its digits read back as year, month and day |
| DayFormat.FormatInjective | im-cms/src/pages/im/message/group_message/index.tsx:22-29 | two valid days with the same formatted text are the same day |
| GroupMessage.BuildGroupSearchQuery | im-cms/src/pages/im/message/group_message/index.tsx:19-66 | sessionType is always 3; groupID becomes recvID iff non-blank; sendID and content iff non-blank; contentType iff a non-zero number; sendTime is always sent, as the chosen day or today |
| GroupMessage.ParseMessageContent | im-cms/src/pages/im/message/group_message/index.tsx:102-167 | the raw content comes back on a parse failure or an unlisted type; 1511 gives the group-information-change label |
| GroupMessage.SharedTemplates | im-cms/src/pages/im/message/group_message/index.tsx:102-167 | the group page and the user page render the shared types alike, and only the group page knows 1511 |
| GroupMessage.GroupConversationQuery | im-cms/src/pages/im/message/group_message/index.tsx:199-206 | sessionType 3, recvID the group, page 1 of 100, and no other filter |
| GroupMessage.GroupConversation | im-cms/src/pages/im/message/group_message/index.tsx:208-221 | the reply's chat logs on success, and empty on any failure |
| GroupMessage.ShownConversation | im-cms/src/pages/im/message/group_message/index.tsx:455-456 | the shown messages are those fetched, sorted ascending by `sendTime` |
| UserMessageList.MessageStatus | im-cms/src/pages/im/message/user_message/UserMessageList.tsx:79-91 | revoked takes precedence; then 0 is sending, 2 is delivered, anything else unknown |
| UserMessageList.RevokedTagOnlyForRevoked | im-cms/src/pages/im/message/user_message/UserMessageList.tsx:79-91 | each status text is shown exactly in its own case |
| UserMessageList.SessionTextNamesOneType | im-cms/src/pages/im/message/user_message/UserMessageList.tsx:51-61 | `单聊` iff 1, `群聊` iff 2, `未知` otherwise |
| UserMessageList.MessageContent | im-cms/src/pages/im/message/user_message/UserMessageList.tsx:30-48 | a parse failure shows the raw content |
| UserMessageList.ListPreviewAgainstPage | im-cms/src/pages/im/message/user_message/UserMessageList.tsx:30-76 | an "other" type shows the raw content; voice matches the full page; text without content shows `文本消息`; 1701 differs from the full page |
| UserMessageList.ListSearchQuery | im-cms/src/pages/im/message/user_message/UserMessageList.tsx:288-300 | every filter is always sent, as 0 or `''` when missing, and pagination defaults to 1 and 10 |
| UserMessageList.MissingAndEmptyTextAgree | im-cms/src/pages/im/message/user_message/UserMessageList.tsx:288-300 | a missing and an empty text filter give the same query |
| UserMessageList.RevokeRequestFor | im-cms/src/pages/im/message/user_message/UserMessageList.tsx:94-101 | the revoke request names the record's `serverMsgID` |
| IdLists.Filter | im-cms/src/pages/im/group/group_list/index.tsx:291-301 | the kept ids are exactly those of the list that pass the test, with no new duplicates |
| IdLists.FilterIsSubsequence | im-cms/src/pages/im/group/group_list/index.tsx:291-301 | a filtered list is a subsequence of the original |
| IdLists.FilterKeepsAll | im-cms/src/pages/im/group/group_list/index.tsx:291-301 | a filter that every id passes leaves the list unchanged |
| IdLists.Without | im-cms/src/pages/im/notification/publish/index.tsx:161 | every occurrence of the id is removed, and nothing else |
| IdLists.WithoutAbsent | im-cms/src/pages/im/notification/publish/index.tsx:161 | removing an absent id changes nothing |
| IdLists.Toggle | im-cms/src/pages/im/notification/publish/index.tsx:159-165 | the id is in the result iff it was not in the list; other ids are unaffected |
| IdLists.ToggleTwice | im-cms/src/pages/im/notification/publish/index.tsx:159-165 | toggling an unselected id twice restores the list |
| IdLists.ToggleKeepsNoDuplicates | im-cms/src/pages/im/notification/publish/index.tsx:159-165 | toggling never introduces a duplicate |
| IdLists.Distinct | im-cms/src/pages/im/notification/publish/index.tsx:385 | `[...new Set(xs)]` has no duplicates and the same members |
| IdLists.DistinctOfDistinct | im-cms/src/pages/im/notification/publish/index.tsx:385 | a duplicate-free list passes through the Set unchanged |
| IdLists.DistinctKeepsPrefix | im-cms/src/pages/im/notification/publish/index.tsx:385 | the Set keeps insertion order, so a duplicate-free selection stays the prefix |
| IdLists.CountIn | im-cms/src/pages/im/notification/publish/index.tsx:407 | the selected count never exceeds the page size |
| IdLists.CountInSpec | im-cms/src/pages/im/notification/publish/index.tsx:404-409 | the count equals the page size iff every page user is selected, and is positive iff some is |
| NotificationPublish.SelectAllBoxStates | im-cms/src/pages/im/notification/publish/index.tsx:397-409 | "all" and "partial" never hold together; partial iff some but not all are selected; an empty page is neither |
| NotificationPublish.SelectPage | im-cms/src/pages/im/notification/publish/index.tsx:380-389 | select-all gives the duplicate-free union of the selection and the page |
| NotificationPublish.SelectPageSpec | im-cms/src/pages/im/notification/publish/index.tsx:380-389 | the old selection stays first, in order, and a non-empty page becomes all-selected |
| NotificationPublish.AttachmentFor | im-cms/src/pages/im/notification/publish/index.tsx:217-240 | the attachment keeps the URL, type and size; width and height are 0 unless an image's size was read |
| NotificationPublish.FindAccount | im-cms/src/pages/im/notification/publish/index.tsx:287 | finds an account with that id, or none iff no account has it |
| NotificationPublish.BuildNotification | im-cms/src/pages/im/notification/publish/index.tsx:267-356 | rejects in the source's order (no sender, blank message, no recipient, unknown sender `发送账号信息不存在`); otherwise recvIDs is `[]` for send-to-all and else the selection; mixType 1 iff an attachment; the link falls back to the text; pictures only for images, sharing one uuid |
| NotificationPublish.SendNotice | im-cms/src/pages/im/notification/publish/index.tsx:357-374 | success reports the number of recipients; `errCode` non-zero shows `发送失败: errMsg`; an exception shows `发送通知失败` |
| NotificationPublish.PublishPage.constructor | im-cms/src/pages/im/notification/publish/index.tsx:60-66 | nothing selected and no attachment |
| NotificationPublish.PublishPage.CheckboxChange | im-cms/src/pages/im/notification/publish/index.tsx:129-134 | checking appends and unchecking removes the user; the attachment is untouched |
| NotificationPublish.PublishPage.AvatarClick | im-cms/src/pages/im/notification/publish/index.tsx:159-165 | removes every occurrence if selected, otherwise appends |
| NotificationPublish.PublishPage.RemoveRecipient | im-cms/src/pages/im/notification/publish/index.tsx:557-559 | the tag's close removes that user from the selection |
| NotificationPublish.PublishPage.SelectAll | im-cms/src/pages/im/notification/publish/index.tsx:380-389 | checked adds the page's ids without duplicates; unchecked clears the whole selection |
| NotificationPublish.PublishPage.Clear | im-cms/src/pages/im/notification/publish/index.tsx:605 | the selection becomes empty |
| NotificationPublish.PublishPage.UploadAttachment | im-cms/src/pages/im/notification/publish/index.tsx:198-255 | a wrong type or a size over 50 MiB is refused with its message and no upload; otherwise a generic upload named `notification/attachment/<name>`, whose success sets the attachment and its URL with `附件上传成功`, and whose failure keeps them and shows `附件上传失败: <error>`; and its calls are exactly that upload's (the `uploadFile` trace: a failed step ends it) |
| NotificationPublish.PublishPage.SendNotification | im-cms/src/pages/im/notification/publish/index.tsx:267-376 | sends exactly the payload the builder gives for the current state; success clears the selection and the attachment, and anything else keeps them |
| GroupRoles.ChangeOwner | im-cms/src/pages/im/group/group_list/index.tsx:277-288 | a new owner empties both the admin and the member selection |
| GroupRoles.ChangeAdmins | im-cms/src/pages/im/group/group_list/index.tsx:291-301 | admins become the chosen list; members become the subsequence of the old members that are neither chosen admins nor the owner; the roles stay apart when the owner is not chosen |
| GroupRoles.ChangeMembers | im-cms/src/pages/im/group/group_list/index.tsx:304-314 | members become the chosen list; admins become the subsequence of the old admins that are neither chosen members nor the owner; the roles stay apart when the owner is not chosen |
| GroupRoles.SameAdminsChangeNothing | im-cms/src/pages/im/group/group_list/index.tsx:291-301 | re-choosing the current admins of a well-formed selection changes nothing |
| GroupRoles.SameMembersChangeNothing | im-cms/src/pages/im/group/group_list/index.tsx:304-314 | re-choosing the current members of a well-formed selection changes nothing |
| GroupRoles.RolePicker.constructor | im-cms/src/pages/im/group/group_list/index.tsx:41-43 | owner `''`, no admins, no members |
| GroupRoles.RolePicker.Reset | im-cms/src/pages/im/group/group_list/index.tsx:317-336 | the selection returns to owner `''` and empty lists |
| GroupRoles.RolePicker.OwnerChange | im-cms/src/pages/im/group/group_list/index.tsx:277-288 | the state becomes `ChangeOwner` of the old state |
| GroupRoles.RolePicker.AdminChange | im-cms/src/pages/im/group/group_list/index.tsx:291-301 | the state becomes `ChangeAdmins` of the old state |
| GroupRoles.RolePicker.MemberChange | im-cms/src/pages/im/group/group_list/index.tsx:304-314 | the state becomes `ChangeMembers` of the old state |
| GroupDrawer.RuleViolations | im-cms/src/pages/im/group/group_list/CreateGroupDrawer.tsx:107-325 | the form passes iff it breaks no rule: name, owner and members required, name at most 20, the three setting selects (verification, member info, add friend) required, notification and introduction at most 200; the untouched form fails exactly on name, owner and members |
| GroupDrawer.InitialFormViolations | im-cms/src/pages/im/group/group_list/CreateGroupDrawer.tsx:73-83 | the initial values fail on exactly the name, the owner and the members |
| GroupDrawer.InitialFormFromOptions | im-cms/src/pages/im/group/group_list/CreateGroupDrawer.tsx:73-83 | the initial settings are among the offered options |
| GroupDrawer.DisabledNote | im-cms/src/pages/im/group/group_list/CreateGroupDrawer.tsx:196-199 | a disabled option is marked `(群主)` for the owner and with the other role otherwise |
| GroupDrawer.PickersKeepRolesApart | im-cms/src/pages/im/group/group_list/CreateGroupDrawer.tsx:172-175 | admins disabled if owner or member, members disabled if owner or admin: every choice the pickers allow keeps owner, admins and members apart; while no owner is chosen the disabled list pickers change nothing |
| GroupListPage.StatusText | im-cms/src/pages/im/group/group_list/index.tsx:157-159 | `禁言` iff the status is 3, `正常` otherwise |
| GroupListPage.OfferedAction | im-cms/src/pages/im/group/group_list/index.tsx:540-573 | cancel-mute is offered iff the group is muted, mute iff it is not |
| GroupListPage.ActionMatchesTag | im-cms/src/pages/im/group/group_list/index.tsx:540-573 | the offered action always agrees with the status tag |
| GroupListPage.GroupInitial | im-cms/src/pages/im/group/group_list/index.tsx:152-154 | `G` for an empty name, otherwise the first character upper-cased |
| GroupListPage.CreateRequestFor | im-cms/src/pages/im/group/group_list/index.tsx:345-359 | groupType 2; owner, name and members from the form; admins default to `[]`; text fields default to `''`; the validated bounds carry over to the request |
| GroupListPage.SettingsRequestFor | im-cms/src/pages/im/group/group_list/index.tsx:398-408 | groupID from the current group; notification and introduction default to `''`; the other fields from the form |
| GroupListPage.SettingsFormOf | im-cms/src/pages/im/group/group_list/index.tsx:170-185 | the settings form opens with the group's own values |
| GroupListPage.UnchangedSettingsRoundTrip | im-cms/src/pages/im/group/group_list/index.tsx:170-185 | confirming an untouched settings form sends back the group's own settings |
| GroupListPage.GroupPage.constructor | im-cms/src/pages/im/group/group_list/index.tsx:26-47 | modals closed, no current group, no members, first members page, empty role selection |
| GroupListPage.GroupPage.OpenMembers | im-cms/src/pages/im/group/group_list/index.tsx:90-120 | the members query names the group and the current page; the list comes from the reply and is empty on failure |
| GroupListPage.GroupPage.CloseMembersModal | im-cms/src/pages/im/group/group_list/index.tsx:265-274 | members `[]`, total 0, pagination page 1 of 10, no current group |
| GroupListPage.GroupPage.OpenCreateGroup | im-cms/src/pages/im/group/group_list/index.tsx:317-326 | the drawer opens with owner `''` and no admins or members; the members dialog is left as it was |
| GroupListPage.GroupPage.CloseCreateGroup | im-cms/src/pages/im/group/group_list/index.tsx:329-336 | the drawer closes with owner `''` and no admins or members; the members dialog is left as it was |
| GroupListPage.GroupPage.ConfirmCreateGroup | im-cms/src/pages/im/group/group_list/index.tsx:339-380 | an invalid form sends nothing; a valid one sends the create request; the drawer closes only on success; the members dialog is left as it was |
| GroupListPage.GroupPage.OpenSettings | im-cms/src/pages/im/group/group_list/index.tsx:170-185 | the group becomes current and the form holds its values; the members dialog is left as it was |
| GroupListPage.GroupPage.CloseSettings | im-cms/src/pages/im/group/group_list/index.tsx:382-385 | the settings drawer closes; the members dialog is left as it was |
| GroupListPage.GroupPage.ConfirmSettings | im-cms/src/pages/im/group/group_list/index.tsx:387-429 | no current group: no request and `群组信息不存在`; otherwise the settings request; the drawer closes only on success; the members dialog is left as it was |
| LegacyGroupList.LegacyGroupPage.constructor | im-cms/src/pages/im/group/group_list/GroupList.tsx:26-49 | drawers closed, both role selections empty |
| LegacyGroupList.LegacyGroupPage.OpenSettings | im-cms/src/pages/im/group/group_list/GroupList.tsx:165-185 | the settings selection is reset; the create selection is untouched |
| LegacyGroupList.LegacyGroupPage.CloseSettings | im-cms/src/pages/im/group/group_list/GroupList.tsx:364-371 | the settings selection is reset; the create selection is untouched |
| LegacyGroupList.LegacyGroupPage.OpenCreateGroup | im-cms/src/pages/im/group/group_list/GroupList.tsx:261-270 | the create selection is reset; the settings selection is untouched |
| LegacyGroupList.LegacyGroupPage.CloseCreateGroup | im-cms/src/pages/im/group/group_list/GroupList.tsx:273-280 | the create selection is reset; the settings selection is untouched |
| LegacyGroupList.LegacyGroupPage.SettingsOwnerChange | im-cms/src/pages/im/group/group_list/GroupList.tsx:327-337 | the owner rule applied to the separate settings state |
| LegacyGroupList.LegacyGroupPage.SettingsAdminChange | im-cms/src/pages/im/group/group_list/GroupList.tsx:340-349 | the admin rule applied to the separate settings state |
| LegacyGroupList.LegacyGroupPage.SettingsMemberChange | im-cms/src/pages/im/group/group_list/GroupList.tsx:352-361 | the member rule applied to the separate settings state |
| LegacyGroupList.LegacyGroupPage.ConfirmCreateGroup | im-cms/src/pages/im/group/group_list/GroupList.tsx:283-324 | the same create request and notices as the current page |
| LegacyGroupList.LegacyGroupPage.ConfirmSettings | im-cms/src/pages/im/group/group_list/GroupList.tsx:373-392 | no request at all: a valid form reports success and closes, an invalid one reports failure |
| LegacyGroupList.StubNotice | im-cms/src/pages/im/group/group_list/GroupList.tsx:188-195 | mute and dissolve make no request and only show their "to be developed" notice |
| GroupMembers.RoleText | im-cms/src/pages/im/group/group_list/GroupMembersModal.tsx:42-51 | 100 is owner (red), 20 is admin (blue), anything else member |
| GroupMembers.RoleTextNamesLevel | im-cms/src/pages/im/group/group_list/GroupMembersModal.tsx:42-51 | each role text names exactly its level |
| GroupMembers.JoinSourceText | im-cms/src/pages/im/group/group_list/GroupMembersModal.tsx:54-67 | 1..4 are invitation, QR code, search, share, and `未知` iff outside 1..4 |
| GroupMembers.OwnerProtected | im-cms/src/pages/im/group/group_list/GroupMembersModal.tsx:126-160 | set-role and remove are disabled iff the member is the owner; mute is never disabled |
| GroupMembers.MemberInitial | im-cms/src/pages/im/group/group_list/GroupMembersModal.tsx:37-39 | `U` for an empty nickname, otherwise the first character upper-cased |
| ImUserList.PlatformsOf | im-cms/src/pages/im/user/user_list/index.tsx:83 | a user's platforms are its tokens' platform IDs, in order |
| ImUserList.StatusMapSpec | im-cms/src/pages/im/user/user_list/index.tsx:80-88 | a user has an entry iff some status item names it, and the entry holds the last such item's status and platforms |
| ImUserList.BuildStatusMap | im-cms/src/pages/im/user/user_list/index.tsx:80-88 | the `forEach` loop builds exactly that map |
| ImUserList.FetchUsersOnlineStatus | im-cms/src/pages/im/user/user_list/index.tsx:72-97 | no request for an empty id list; `{}` on a non-zero `errCode` or an exception; otherwise the status map |
| ImUserList.WithStatus | im-cms/src/pages/im/user/user_list/index.tsx:119-122 | length and order are kept; each user gets its map entry or `{status: 0, platforms: []}` |
| ImUserList.IdsOf | im-cms/src/pages/im/user/user_list/index.tsx:115 | the status lookup asks for the page's user IDs in order |
| ImUserList.NonEmpty | im-cms/src/pages/im/user/user_list/index.tsx:106-107 | `value \|\| undefined`: only a non-empty filter is sent |
| ImUserList.UsersQueryFor | im-cms/src/pages/im/user/user_list/index.tsx:101-108 | pagination defaults to 1 and 10; the userID and nickname filters only when non-empty |
| ImUserList.FetchIMUsers | im-cms/src/pages/im/user/user_list/index.tsx:99-139 | a failed page gives the empty result and asks for no status; otherwise the users merged with their statuses, in order |
| ImUserList.UserInitial | im-cms/src/pages/im/user/user_list/index.tsx:303-309 | `U` for an empty nickname; the first character as is if any CJK character occurs; otherwise upper-cased |
| ImUserList.PlatformName | im-cms/src/pages/im/user/user_list/index.tsx:321-329 | 1..5 name iOS, Android, Windows, macOS and Web; any other id is `平台<id>` |
| ImUserList.UnknownPlatformMark | im-cms/src/pages/im/user/user_list/index.tsx:321-329 | a name starts with `平` iff the id is outside 1..5 |
| ImUserList.PlatformNamesDistinct | im-cms/src/pages/im/user/user_list/index.tsx:321-329 | different ids get different names |
| ImUserList.PlatformNames | im-cms/src/pages/im/user/user_list/index.tsx:321-330 | the platform list maps element by element to names |
| ImUserList.StatusDisplay | im-cms/src/pages/im/user/user_list/index.tsx:312-342 | no status is unknown; status 1 with platforms is online with their names joined by `, `; status 1 without is online; otherwise offline |
| ImUserList.ForceLogoutOnlyWhenShownOnline | im-cms/src/pages/im/user/user_list/index.tsx:422-430 | the force-logout button is enabled iff the status shows online (green) |
| ImUserList.MergedRowsHaveStatus | im-cms/src/pages/im/user/user_list/index.tsx:119-122 | a user missing from the map is shown offline, never unknown |
| ImUserList.LogoutRequests | im-cms/src/pages/im/user/user_list/index.tsx:164-169 | exactly one request per selected platform, in order, for the chosen user |
| ImUserList.SuccessCount | im-cms/src/pages/im/user/user_list/index.tsx:172 | the success count is at most the number of replies |
| ImUserList.SuccessCountSpec | im-cms/src/pages/im/user/user_list/index.tsx:172 | the count is total iff all succeeded, and zero iff none did |
| ImUserList.Classify | im-cms/src/pages/im/user/user_list/index.tsx:171-188 | all succeed is success with the count; some succeed is a warning with failed = total − success; none is an error; an exception is the retry error |
| ImUserList.OutcomeNotice | im-cms/src/pages/im/user/user_list/index.tsx:156-188 | the two failure notices, and only they, begin `强制下线失败` |
| ImUserList.OutcomeNoticeInjective | im-cms/src/pages/im/user/user_list/index.tsx:156-188 | different outcomes never show the same message, counts included |
| ImUserList.ForceLogoutDrawer.constructor | im-cms/src/pages/im/user/user_list/index.tsx:66-68 | closed, no user, no platforms |
| ImUserList.ForceLogoutDrawer.Open | im-cms/src/pages/im/user/user_list/index.tsx:148-152 | opens for that user with no platform selected |
| ImUserList.ForceLogoutDrawer.Close | im-cms/src/pages/im/user/user_list/index.tsx:194-198 | closes and forgets the user and the platforms |
| ImUserList.ForceLogoutDrawer.SetPlatforms | im-cms/src/pages/im/user/user_list/index.tsx:641 | the checkbox group sets the selected platforms |
| ImUserList.ForceLogoutDrawer.Confirm | im-cms/src/pages/im/user/user_list/index.tsx:155-191 | no user or no platform: no request and `请选择要下线的平台`; otherwise one request per platform, classified, with that outcome's notice; the drawer closes iff some platform was logged out |
| ChatUserList.PasswordErrors | im-cms/src/pages/chat/user/user_list/index.tsx:729-737 | a password passes iff it is non-empty, 6 to 20 characters, and ASCII letters and digits only; a missing one reports only "required" |
| ChatUserList.ConfirmationErrors | im-cms/src/pages/chat/user/user_list/index.tsx:747-757 | the confirmation passes iff it is non-empty and equals the new password |
| ChatUserList.ResetFieldsAccept | im-cms/src/pages/chat/user/user_list/index.tsx:729-757 | both reset fields pass iff the new password is acceptable and typed twice the same |
| ChatUserList.PhoneErrors | im-cms/src/pages/chat/user/user_list/index.tsx:877-883 | a phone passes iff it is 11 digits, starts with 1, and has 3 to 9 second; at most one message is shown |
| ChatUserList.NicknameErrors | im-cms/src/pages/chat/user/user_list/index.tsx:618-623 | a nickname passes iff it is non-empty and at most 20 characters |
| ChatUserList.AvatarRejection | im-cms/src/pages/chat/user/user_list/index.tsx:586-597 | an avatar is accepted iff its type starts with `image/` and its size is strictly under 2 MiB |
| ChatUserList.GenderText | im-cms/src/pages/chat/user/user_list/index.tsx:107-116 | 0 is female, 1 male, anything else unknown, each in both directions |
| ChatUserList.UpdateRequestFor | im-cms/src/pages/chat/user/user_list/index.tsx:141-157 | the uploaded URL if non-empty, else the old faceURL; birth 0 when absent; the nickname is validated |
| ChatUserList.UntouchedEditRoundTrip | im-cms/src/pages/chat/user/user_list/index.tsx:124-157 | saving an untouched edit sends the user's own nickname, gender and faceURL back |
| ChatUserList.NewUserFor | im-cms/src/pages/chat/user/user_list/index.tsx:236-256 | userID and email `''`; areaCode is always `+86`, since the drawer has no area-code item and `validateFields` returns none; the password is sent as its MD5 digest; the phone is valid |
| ChatUserList.PasswordNeverSentPlain | im-cms/src/pages/chat/user/user_list/index.tsx:241 | the password sent is never the password typed |
| ChatUserList.ResetRequestFor | im-cms/src/pages/chat/user/user_list/index.tsx:200-206 | the reset names the user and sends the MD5 digest of the new password |
| ChatUserList.BlockRequestFor | im-cms/src/pages/chat/user/user_list/index.tsx:341-344 | the block names the user and sends the reason or `''`, at most 200 characters |
| ChatUserList.UserInitial | im-cms/src/pages/chat/user/user_list/index.tsx:383-391 | `U` for an empty nickname; the first character as is if any CJK character occurs; otherwise upper-cased |
| ChatUserList.PhoneDisplay | im-cms/src/pages/chat/user/user_list/index.tsx:433-434 | `areaCode` (default `+86`), a space and the number; `-` without a number |
| ChatUserList.PhoneDisplayReadsBack | im-cms/src/pages/chat/user/user_list/index.tsx:433-434 | the displayed text splits at its space back into the area code and the number |
| ChatUserList.SentResetIsConfirmed | im-cms/src/pages/chat/user/user_list/index.tsx:194-220 | a reset that is sent carries an acceptable password that was typed twice the same |
| ChatUserList.UserEditor.constructor | im-cms/src/pages/chat/user/user_list/index.tsx:49-50 | the drawer is closed, with no user and no avatar URL |
| ChatUserList.UserEditor.Edit | im-cms/src/pages/chat/user/user_list/index.tsx:124-133 | opens for the record, with its faceURL or `''` as the avatar URL |
| ChatUserList.UserEditor.UploadAvatar | im-cms/src/pages/chat/user/user_list/index.tsx:278-302 | without an editing user nothing is uploaded; otherwise the result is the upload's for that user's avatar, a success replaces the avatar URL, and a failure keeps it; and its calls are exactly that upload's (the `uploadFile` trace: a failed step ends it) |
| ChatUserList.UserEditor.Save | im-cms/src/pages/chat/user/user_list/index.tsx:136-176 | invalid form: nothing sent; no editing user: `用户信息不存在`; otherwise the update request; the drawer closes only on success |
| ChatUserList.UserEditor.Close | im-cms/src/pages/chat/user/user_list/index.tsx:179-184 | closes and forgets the user and the avatar URL |
| ChatUserList.ResetPasswordModal.constructor | im-cms/src/pages/chat/user/user_list/index.tsx:60-61 | closed, no user |
| ChatUserList.ResetPasswordModal.Open | im-cms/src/pages/chat/user/user_list/index.tsx:187-191 | opens for the record |
| ChatUserList.ResetPasswordModal.Confirm | im-cms/src/pages/chat/user/user_list/index.tsx:194-220 | invalid fields: nothing sent; no user: nothing; otherwise the hashed reset; the modal closes only on success |
| ChatUserList.ResetPasswordModal.Cancel | im-cms/src/pages/chat/user/user_list/index.tsx:222-226 | closes and forgets the user |
| ChatUserList.CreateUserDrawer.constructor | im-cms/src/pages/chat/user/user_list/index.tsx:65-70 | closed, no avatar URL |
| ChatUserList.CreateUserDrawer.Open | im-cms/src/pages/chat/user/user_list/index.tsx:229-233 | opens with no avatar URL |
| ChatUserList.CreateUserDrawer.UploadAvatar | im-cms/src/pages/chat/user/user_list/index.tsx:305-326 | the avatar is uploaded for `temp_<now>`, the result is that upload's, and a success replaces the avatar URL; and its calls are exactly that upload's (the `uploadFile` trace: a failed step ends it) |
| ChatUserList.CreateUserDrawer.Confirm | im-cms/src/pages/chat/user/user_list/index.tsx:236-269 | invalid form: nothing sent; otherwise one new user with the hashed password; the drawer closes only on success |
| ChatUserList.CreateUserDrawer.Close | im-cms/src/pages/chat/user/user_list/index.tsx:271-275 | closes and clears the avatar URL |
| ChatUserList.BlockModal.constructor | im-cms/src/pages/chat/user/user_list/index.tsx:55-56 | closed, no user |
| ChatUserList.BlockModal.Open | im-cms/src/pages/chat/user/user_list/index.tsx:329-333 | opens for the record |
| ChatUserList.BlockModal.Confirm | im-cms/src/pages/chat/user/user_list/index.tsx:336-359 | invalid reason: nothing sent; no user: nothing; otherwise the block request; the modal closes only on success |
| ChatUserList.BlockModal.Cancel | im-cms/src/pages/chat/user/user_list/index.tsx:361-365 | closes and forgets the user |
| ProfileInfo.Either | im-cms/src/pages/profile/info/index.tsx:38 | `a \|\| b` on optional text: `a` unless it is missing or empty |
| ProfileInfo.ShownAvatar | im-cms/src/pages/profile/info/index.tsx:37-38 | faceURL, else avatar, else the fixed default URL; never empty |
| ProfileInfo.LoadedForm | im-cms/src/pages/profile/info/index.tsx:48-52 | userID falls back from userid to userID to `''`; nickname from nickname to name to `''`; faceURL is the shown avatar |
| ProfileInfo.NicknameErrors | im-cms/src/pages/profile/info/index.tsx:249-252 | a nickname passes iff present and 2 to 20 characters |
| ProfileInfo.UpdateFor | im-cms/src/pages/profile/info/index.tsx:138-149 | userID always; nickname and faceURL only when non-empty and different from the current values (nickname/name, faceURL/avatar) |
| ProfileInfo.SubmittedValues | im-cms/src/pages/profile/info/index.tsx:214-252 | the handler receives the named items only: userID and nickname, never the store's faceURL, since the avatar item has no name |
| ProfileInfo.Merged | im-cms/src/pages/profile/info/index.tsx:163-167 | the updated fields replace both of their aliases (nickname/name, faceURL/avatar); the rest is kept |
| ProfileInfo.UntouchedFormSendsNothing | im-cms/src/pages/profile/info/index.tsx:48-56 | for every admin, submitting the loaded form sends nothing, and so does submitting it after only the avatar changed |
| ProfileInfo.UpdateThenResubmitSendsNothing | im-cms/src/pages/profile/info/index.tsx:129-190 | after a successful update, submitting the same values again sends nothing |
| ProfileInfo.KeptFiles | im-cms/src/pages/profile/info/index.tsx:70-81 | only the last file is kept, with the response URL when there is one |
| ProfileInfo.ProfilePage.constructor | im-cms/src/pages/profile/info/index.tsx:21-23 | an empty form, no avatar URL and no files |
| ProfileInfo.ProfilePage.Load | im-cms/src/pages/profile/info/index.tsx:26-58 | without a current user: a warning and nothing else; otherwise the loaded form and the shown avatar |
| ProfileInfo.ProfilePage.TypeNickname | im-cms/src/pages/profile/info/index.tsx:240-255 | typing changes only the nickname field |
| ProfileInfo.ProfilePage.CustomUpload | im-cms/src/pages/profile/info/index.tsx:110-126 | the avatar is uploaded under the adminUserID, or `imAdmin` when there is none, and the result is that upload's; and its calls are exactly that upload's (the `uploadFile` trace: a failed step ends it) |
| ProfileInfo.ProfilePage.AvatarChange | im-cms/src/pages/profile/info/index.tsx:69-106 | only the last file is kept; a finished upload sets the avatar and form field; an error only reports |
| ProfileInfo.ProfilePage.Submit | im-cms/src/pages/profile/info/index.tsx:129-192 | an invalid nickname sends nothing; no user reports the error; the update is built from the submitted values, so it never carries a faceURL; nothing changed reports so and sends nothing; a success merges the update and stores it |
| ProfileInfo.StoredAfter | im-cms/src/pages/profile/info/index.tsx:174-180 | storage keeps every other key and gets the updated nickname and faceURL only |
| AccountList.TypeText | im-cms/src/pages/im/notification/account_list/index.tsx:105-112 | 3 is a system account, 4 a robot, anything else unknown |
| AccountList.TypeColor | im-cms/src/pages/im/notification/account_list/index.tsx:105-112 | `blue` exactly for the system type (3), `green` exactly for the robot type (4), grey `#666` exactly for unknown types |
| AccountList.AccountsResult | im-cms/src/pages/im/notification/account_list/index.tsx:161-183 | any answered reply succeeds with its accounts or `[]`; only an exception fails |
| AccountList.AccountsResultIgnoresErrorCode | im-cms/src/pages/im/notification/account_list/index.tsx:161-183 | unlike the common list rule, a non-zero `errCode` still counts as success |
| AccountList.AccountUpdateFor | im-cms/src/pages/im/notification/account_list/index.tsx:199-215 | the trimmed nickname is sent; faceURL only when an avatar was uploaded |
| AccountList.AvatarRejection | im-cms/src/pages/im/notification/account_list/index.tsx:248-259 | accepted iff the type starts with `image/` and the size is at most 5 MiB |
| AccountList.AvatarObjectName | im-cms/src/pages/im/notification/account_list/index.tsx:262 | the object name is `notification/<userID>_<file name>` |
| AccountList.AccountEditor.constructor | im-cms/src/pages/im/notification/account_list/index.tsx:19-21 | no row is being edited |
| AccountList.AccountEditor.ShownAvatar | im-cms/src/pages/im/notification/account_list/index.tsx:41 | the uploaded avatar if any, else the record's faceURL |
| AccountList.AccountEditor.Edit | im-cms/src/pages/im/notification/account_list/index.tsx:187-191 | starts editing the row with its own nickname and avatar |
| AccountList.AccountEditor.TypeNickName | im-cms/src/pages/im/notification/account_list/index.tsx:83 | typing changes only the edited nickname |
| AccountList.AccountEditor.Save | im-cms/src/pages/im/notification/account_list/index.tsx:194-228 | a blank nickname sends nothing; otherwise the update; any answer ends editing with `保存成功`; an exception keeps it |
| AccountList.AccountEditor.Cancel | im-cms/src/pages/im/notification/account_list/index.tsx:231-235 | editing ends with every field cleared |
| AccountList.AccountEditor.UploadAvatar | im-cms/src/pages/im/notification/account_list/index.tsx:238-281 | a rejected file makes no call; otherwise a generic upload under `notification/<userID>_<name>`, never an account update; success sets the edited avatar to the URL with `头像上传成功`, failure keeps it and shows `头像上传失败: <error>`; and its calls are exactly that upload's (the `uploadFile` trace: a failed step ends it) |
| AccountList.DeleteNotice | im-cms/src/pages/im/notification/account_list/index.tsx:284-298 | any answered reply reports `删除成功` |
| DefaultFriends.FriendsQuery | im-cms/src/pages/chat/register/default_friends/index.tsx:65-71 | pagination defaults to 1 and 10; the keyword defaults to `''` |
| DefaultFriends.CandidatesQuery | im-cms/src/pages/chat/register/default_friends/index.tsx:99-105 | candidates are always page 1 of 100 for the search text |
| DefaultFriends.Ids | im-cms/src/pages/chat/register/default_friends/index.tsx:142 | the row keys are the users' IDs, in order |
| DefaultFriends.DropUser | im-cms/src/pages/chat/register/default_friends/index.tsx:141 | exactly the users with another ID remain |
| DefaultFriends.DropUserKeepsKeys | im-cms/src/pages/chat/register/default_friends/index.tsx:140-146 | removing a user from the rows removes its key from the keys, so the two stay in step |
| DefaultFriends.IdsOfAppend | im-cms/src/pages/chat/register/default_friends/index.tsx:131-137 | appending a row appends its key |
| DefaultFriends.UserInitial | im-cms/src/pages/chat/register/default_friends/index.tsx:209-215 | `U` for an empty nickname; the first character as is if any CJK character occurs; otherwise upper-cased |
| DefaultFriends.AddFriendDialog.constructor | im-cms/src/pages/chat/register/default_friends/index.tsx:49-60 | closed; no users, no selection, no search text |
| DefaultFriends.AddFriendDialog.LoadCandidates | im-cms/src/pages/chat/register/default_friends/index.tsx:96-122 | all and filtered users become the reply's users, and are empty on any failure |
| DefaultFriends.AddFriendDialog.Open | im-cms/src/pages/chat/register/default_friends/index.tsx:167-174 | opens with no selection and no search text, and loads the first 100 users |
| DefaultFriends.AddFriendDialog.Search | im-cms/src/pages/chat/register/default_friends/index.tsx:125-128 | records the search text and loads the matching users |
| DefaultFriends.AddFriendDialog.SelectionChange | im-cms/src/pages/chat/register/default_friends/index.tsx:131-137 | the selected rows and keys become the table's selection |
| DefaultFriends.AddFriendDialog.RemoveSelected | im-cms/src/pages/chat/register/default_friends/index.tsx:140-146 | the user leaves both the selected rows and the selected keys |
| DefaultFriends.AddFriendDialog.Confirm | im-cms/src/pages/chat/register/default_friends/index.tsx:177-199 | no selection: a warning and no request; otherwise only the first selected user is added; the dialog closes only on success; the selection is not reset |
| DefaultFriends.AddFriendDialog.Cancel | im-cms/src/pages/chat/register/default_friends/index.tsx:202-207 | closes and clears the selection and the search text |
| LogList.TimeRange | im-cms/src/pages/operations/log_list/index.tsx:18-23 | a range is sent only for two entries whose timestamps are both truthy |
| LogList.LogQueryFor | im-cms/src/pages/operations/log_list/index.tsx:16-46 | page fields default to 1 and 10 (sent twice); userID only when not blank; start and end time together or not at all |
| LogList.SearchNotice | im-cms/src/pages/operations/log_list/index.tsx:49-69 | an error is shown iff the search fails: `errMsg` or the fallback text |
| LogList.DownloadName | im-cms/src/pages/operations/log_list/index.tsx:88 | the last `/`-separated piece of the file name, or `log_<logID>.zip` when that is empty; never empty |
| LogList.DownloadNameOfPath | im-cms/src/pages/operations/log_list/index.tsx:88 | for a path of plain pieces, the name is its base name, or the fallback when the path ends in `/` |
| LogList.DownloadNameHasNoSlash | im-cms/src/pages/operations/log_list/index.tsx:88 | the download name never contains `/` |
| LogList.DeleteRequest | im-cms/src/pages/operations/log_list/index.tsx:101-106 | a delete names exactly the one record's logID |
| LogList.PlatformColor | im-cms/src/pages/operations/log_list/index.tsx:120-135 | each of the five platforms has its own color, and `default` is used exactly for any other |
| LogList.LogInitial | im-cms/src/pages/operations/log_list/index.tsx:77-80 | `U` for an empty name, otherwise the first character upper-cased |
| ProfilePassword.LengthErrors | im-cms/src/pages/profile/password/index.tsx:117-140 | a field passes iff present, non-empty and within its length bounds |
| ProfilePassword.FormErrors | im-cms/src/pages/profile/password/index.tsx:117-165 | the form passes iff the current password has 6 or more characters, the new one 6 to 20, and the confirmation is present and equal to the new one |
| ProfilePassword.ChangeRequestFor | im-cms/src/pages/profile/password/index.tsx:47-60 | the userID is adminUserID or `imAdmin`; both passwords are sent as MD5 digests |
| ProfilePassword.Refusal | im-cms/src/pages/profile/password/index.tsx:26-45 | checked in order: no user, then new ≠ confirmation, then new = current; no refusal iff none applies |
| ProfilePassword.MismatchCheckUnreachable | im-cms/src/pages/profile/password/index.tsx:32-37 | once the form rules pass, the mismatch message can never be shown |
| ProfilePassword.ChangeNotice | im-cms/src/pages/profile/password/index.tsx:63-87 | success asks to log in again; `errCode` non-zero shows `errMsg`; an exception shows its message or `未知错误` |
| ProfilePassword.ChangedPasswordDiffers | im-cms/src/pages/profile/password/index.tsx:39-48 | a change that is sent has different passwords, whose UTF-8 bytes differ, so equal digests would mean an MD5 collision |
| ProfilePassword.PasswordPage.constructor | im-cms/src/pages/profile/password/index.tsx:17-20 | the page starts with the current user and the browser storage |
| ProfilePassword.PasswordPage.Submit | im-cms/src/pages/profile/password/index.tsx:23-91 | invalid form: nothing; a refusal: its message and no request; otherwise the hashed change; success clears the session keys, and anything else leaves storage alone |
| ProfilePassword.PasswordPage.ClearSession | im-cms/src/pages/profile/password/index.tsx:67-75 | exactly the eight session keys are removed from storage |
| DefaultGroup.GroupInitial | im-cms/src/pages/chat/register/default_group/index.tsx:117-123 | `G` for an empty name; the first character as is if any CJK character occurs; otherwise upper-cased |
| DefaultGroup.AddedIdIsClean | im-cms/src/pages/chat/register/default_group/index.tsx:94-101 | the ID added is non-empty, trimmed, and has no whitespace at either end |
| DefaultGroup.DefaultGroupPage.constructor | im-cms/src/pages/chat/register/default_group/index.tsx:36-37 | an empty group ID and no refresh yet |
| DefaultGroup.DefaultGroupPage.TypeGroupID | im-cms/src/pages/chat/register/default_group/index.tsx:234 | typing sets the group ID |
| DefaultGroup.DefaultGroupPage.Add | im-cms/src/pages/chat/register/default_group/index.tsx:93-115 | a blank ID: a warning and no request; otherwise the trimmed ID alone; success clears the input and refreshes |
| DefaultGroup.DefaultGroupPage.Remove | im-cms/src/pages/chat/register/default_group/index.tsx:74-90 | removes exactly that group; refreshes only on success |
| BlockList.GenderText | im-cms/src/pages/chat/user/block_list/index.tsx:60-71 | 0 and 2 are female, 1 male, anything else unknown |
| BlockList.GenderColor | im-cms/src/pages/chat/user/block_list/index.tsx:60-71 | `blue` exactly for 0, `green` exactly for 1, `default` exactly for every other gender |
| BlockList.GenderTextsDisagreeOnTwo | im-cms/src/pages/chat/user/block_list/index.tsx:60-71 | this page and the chat user list label genders alike except 2 |
| BlockList.UserInitial | im-cms/src/pages/chat/user/block_list/index.tsx:100-107 | `U` for an empty nickname; the first character as is if any CJK character occurs; otherwise upper-cased |
| BlockList.PhoneText | im-cms/src/pages/chat/user/block_list/index.tsx:148 | `areaCode` (default `+86`), a space and the number; `-` without a number |
| BlockList.ReasonText | im-cms/src/pages/chat/user/block_list/index.tsx:155 | the reason, or `-` when empty; never empty |
| BlockList.BlockedQueryFor | im-cms/src/pages/chat/user/block_list/index.tsx:28-35 | page fields default to 1 and 10, sent both flat and as pagination |
| BlockList.BlockListPage.constructor | im-cms/src/pages/chat/user/block_list/index.tsx:23 | no refresh yet |
| BlockList.BlockListPage.Unblock | im-cms/src/pages/chat/user/block_list/index.tsx:74-90 | unblocks exactly that user; refreshes only on success |
| JsText.BlankIffAllWhitespace | im-cms/src/pages/im/message/user_message/index.tsx:37-47 | `s.trim() === ''` holds exactly when every character is JavaScript whitespace |
| JsText.TrimIdempotent | im-cms/src/pages/chat/register/default_group/index.tsx:94-101 | trimming twice is trimming once |
| JsText.SplitJoin | im-cms/src/pages/operations/log_list/index.tsx:88 | `split('/')` undoes `join('/')` for pieces without `/` |
| JsText.IntToStringInjective | im-cms/src/pages/im/user/user_list/index.tsx:328 | different numbers print differently, so `平台<id>` names stay apart |

## Left out

- Network I/O. Every endpoint, `fetch` and the presigned PUT are given as replies (`Api.Reply`, `FileUpload.Backend`). The model says which requests are sent and how each reply is handled. It does not say what the server does.
- `Promise.all` in the force-logout confirm runs its requests concurrently. The model takes the replies in platform order; only the count of successes matters to the source.
- MD5 itself (RFC 1321) is a parameter with 32-digit lowercase hex outputs. Its collision resistance is assumed nowhere.
- The clock, UUIDs and image dimensions are parameters: `Date.now()` in `temp_<now>`, today's date in the group message search, `generateUUID`, and `getImageDimensions`.
- Characters are Dafny characters, not UTF-16 code units. Lengths such as the 20-character nickname limit therefore differ from JavaScript for characters outside the Basic Multilingual Plane. `toUpperCase` is modelled on ASCII letters only.
- The JavaScript engine's TypeError text for an initiate answer without an upload target is a parameter (`FileUpload.Backend.missingTargetError`). The model shows it as the source does; it does not say what it reads.
- `JSON.parse` is given as its result (`None` when it throws). The model does not parse text.
- JSON numbers in message payloads are integers only. A fractional value, such as a voice `duration` of 2.5 that the page shows as `2.5秒`, cannot be expressed.
- Form values that Ant Design would hold as numeric strings are modelled as numbers, missing or empty only.
- Loading flags, `console` logging, `refreshKey` counters (except on the default-group and block-list pages), `form.resetFields`, and the confirm dialogs in front of deletes are left out. The dialogs only gate the call.
- Mute, cancel-mute and dissolve in `group_list/index.tsx` (lines 188-250) are not modelled. Each is a single request, and its notice follows `Api.RequestNotice`.
- The members table pager of `group_list/index.tsx` (`handleMembersTableChange`) is not modelled.
- GroupSettingsDrawer.tsx's own field rules are not modelled. `GroupListPage.GroupPage.ConfirmSettings` takes values that passed validation. `LegacyGroupList.LegacyGroupPage.ConfirmSettings` takes only whether validation passed, because that page sends nothing.
- The friend list, friend deletion and friends pager of the IM user list page are not modelled.
- The chat user list's `getOnlineStatus` is not modelled; it is a fixed tag.
- The chat user list's `fetchUserList` is `Api.ToListResult`.
- `handleRemove` on the default-friends page is not modelled. It is one request whose notice follows `Api.RequestNotice`.
- In the profile page's avatar change, the `setInitialState` refresh (lines 89-100) is not modelled, and neither is the global `setInitialState` after a submit. The model keeps the merged user (`ProfileInfo.Merged`) as the page's own current user instead.
- Reading a file part with `FileReader` is taken to succeed. Its failure path (`fileUpload.ts` lines 54-79), which rejects the hash and so fails the upload with the reader's error, is not modelled.
- After a successful password change, the page redirects to `/user/login` 1.5 seconds later (`profile/password/index.tsx` lines 78-80). The redirect is not modelled; the cleared session keys are.
- The log list's download handler builds a DOM link and shows its own notices; only the file name it picks (`LogList.DownloadName`) is modelled. The delete handler's notices and the table reload (`operations/log_list/index.tsx` lines 83-117) are not modelled; only its request (`LogList.DeleteRequest`) is.
- The login page, routes, proxy settings and the service type declarations are outside the modelled core.
- LegacyGroupList.LegacyGroupPage.ConfirmSettings: the source waits one second before reporting success. The wait is not modelled.

Observations on the code as written, stated as lemmas rather than findings, since the intent is not certain:

- `AccountList.AccountsResultIgnoresErrorCode`: the notification-account fetch counts a non-zero `errCode` as success.
- `ProfilePassword.MismatchCheckUnreachable`: the password page's own mismatch check can never fire behind the form rule.
- `BlockList.GenderTextsDisagreeOnTwo`: gender 2 is `女` on the block list and `未知` on the chat user list.
- `ProfileInfo.UntouchedFormSendsNothing`: the profile form's avatar item has no `name`, so the submit handler never receives a `faceURL`. Its faceURL branches (`profile/info/index.tsx` lines 146-148, 166 and 178-180) are dead, and a changed avatar alone reports `没有检测到需要更新的信息`. The avatar is saved only by the upload's own account update. `ProfileInfo.Merged` and `ProfileInfo.StoredAfter` still model those branches as written.
- `DefaultFriends.AddFriendDialog.Confirm` adds only the first selected user.
