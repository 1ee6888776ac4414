# OpenVidu end-to-end harness rules and chat service, in Dafny

This project models the small self-contained rules inside the OpenVidu
end-to-end test harness (`AbstractOpenViduTestAppE2eTest`) and the chat
service of the OpenVidu Angular components, and proves what they promise.

- **Configuration** (`config.dfy`, `environment.dfy`). System properties
  are a `map<string, string>`; a missing key is `getProperty` returning
  `null`. `Environment.TestConfig` holds the harness's static settings with
  their defaults. `LoadEnvironmentVariables` applies the two override rules:
  URLs, secret, image and licences take any present property; browser
  versions take only a present, non-blank one. `EXTERNAL_CUSTOM_LAYOUT_PARAMS`
  is split on commas, keeping empty fields. An odd number of fields fails the
  load: the test assertion throws, so the two URLs read before it are updated
  and nothing after it is. An even number is rebuilt as
  `n1=v1&n2=v2…` by the loop of `Config.BuildLayoutParams`.
- **Java strings** (`java_text.dfy`). `split(sep, -1)`, `startsWith`,
  `contains`, `replaceFirst` with a literal pattern and `isBlank` with
  Java's whitespace set.
- **Media server** (`media_server.dfy`). The image is classified by prefix
  as Kurento or mediasoup, or refused (the process exits). From that come the
  `docker run` command, the grep key of the `docker rm` pipeline and, by a
  substring test, the recording extension.
- **`mergeJson`** (`json_merge.dfy`). A JSON object is an insertion-ordered
  list of members with distinct names, as Gson keeps it. Member values are
  abstract.
- **Participants leaving** (`participants.dfy`). The sequence of ENTER
  presses on the remove-user button and event-count waits of
  `gracefullyLeaveParticipants`.
- **File polling** (`file_wait.dfy`). File-system checks are an indexed
  sequence of observations, one per loop round, plus one for the check after
  a timeout. Java's 32-bit `int` arithmetic for `maxLoops` is modelled
  exactly.
- **Chat** (`chat.dfy`). Outgoing message normalisation and its guard, and
  the handler for received chat signals. `Chat.ChatService` records in fields
  the messages, every list published to subscribers, the notifications
  launched and the signals sent.

Behaviour the model makes explicit:
- An absent `EXTERNAL_CUSTOM_LAYOUT_PARAMS` leaves the comma-form default
  `sessionId,CUSTOM_LAYOUT_SESSION,secret,MY_SECRET` in place. It is not
  rebuilt into query form.
- An empty property is one empty field, so it is refused
  (`Config.EmptyLayoutParamsRefused`).
- The recording extension uses `contains`, while start and stop use
  `startsWith`. A registry-qualified Kurento image therefore has an extension
  but no start command (`MediaServer.RegistryQualifiedKurento`).
- `maxSecondsWait * 1000` overflows a Java `int` above 2147483 seconds. From
  2147484 up to 4294967 seconds `maxLoops` is negative and no poll is made
  (`FileWait.MaxLoopsOverflow`). At 4294968 seconds it has wrapped round to 7
  (`FileWait.MaxLoopsWrapsBack`).

## Model

| member | source | states |
|---|---|---|
| JavaText.Split | openvidu-test-e2e/src/test/java/io/openvidu/test/e2e/AbstractOpenViduTestAppE2eTest.java:188 | `split(",", -1)`: every field kept, empty ones included, and always at least one |
| JavaText.SplitCount | openvidu-test-e2e/src/test/java/io/openvidu/test/e2e/AbstractOpenViduTestAppE2eTest.java:188 | splitting with limit -1 gives one field more than there are separators, so empty fields are kept |
| JavaText.SplitAllFree | openvidu-test-e2e/src/test/java/io/openvidu/test/e2e/AbstractOpenViduTestAppE2eTest.java:188 | no field contains the separator |
| JavaText.SplitJoin | openvidu-test-e2e/src/test/java/io/openvidu/test/e2e/AbstractOpenViduTestAppE2eTest.java:188 | joining the fields with the separator gives the property back |
| JavaText.JoinSplit | openvidu-test-e2e/src/test/java/io/openvidu/test/e2e/AbstractOpenViduTestAppE2eTest.java:188 | separator-free fields joined and split again are the same fields |
| JavaText.SplitFree | openvidu-test-e2e/src/test/java/io/openvidu/test/e2e/AbstractOpenViduTestAppE2eTest.java:188 | a string without the separator is one field |
| JavaText.SplitPrefix | openvidu-test-e2e/src/test/java/io/openvidu/test/e2e/AbstractOpenViduTestAppE2eTest.java:188 | a separator-free prefix before the separator becomes the first field |
| JavaText.StartsWith | openvidu-test-e2e/src/test/java/io/openvidu/test/e2e/AbstractOpenViduTestAppE2eTest.java:488 | `startsWith`: the string begins with the prefix |
| JavaText.Contains | openvidu-test-e2e/src/test/java/io/openvidu/test/e2e/AbstractOpenViduTestAppE2eTest.java:560 | `contains`: the text occurs at some position |
| JavaText.StartsWithContains | openvidu-test-e2e/src/test/java/io/openvidu/test/e2e/AbstractOpenViduTestAppE2eTest.java:488 | a prefix is also a substring |
| JavaText.IndexOf | openvidu-test-e2e/src/test/java/io/openvidu/test/e2e/AbstractOpenViduTestAppE2eTest.java:526 | the result is the leftmost occurrence at or after `from`, or none exists |
| JavaText.NoOccurrenceBefore | openvidu-test-e2e/src/test/java/io/openvidu/test/e2e/AbstractOpenViduTestAppE2eTest.java:526 | no occurrence starts before the first position holding the pattern's first character |
| JavaText.ReplaceFirstAfter | openvidu-test-e2e/src/test/java/io/openvidu/test/e2e/AbstractOpenViduTestAppE2eTest.java:526 | with no occurrence before position k, the occurrence at k is the one replaced and the text around it is kept |
| JavaText.ReplaceFirst | openvidu-test-e2e/src/test/java/io/openvidu/test/e2e/AbstractOpenViduTestAppE2eTest.java:526 | `replaceFirst` with a literal pattern: unchanged when the pattern is absent, otherwise one occurrence swapped for the replacement |
| JavaText.IsWhitespace | openvidu-test-e2e/src/test/java/io/openvidu/test/e2e/AbstractOpenViduTestAppE2eTest.java:231 | the characters `Character.isWhitespace` accepts |
| JavaText.IsBlank | openvidu-test-e2e/src/test/java/io/openvidu/test/e2e/AbstractOpenViduTestAppE2eTest.java:231 | `isBlank`: every character is whitespace |
| Config.Pairs | openvidu-test-e2e/src/test/java/io/openvidu/test/e2e/AbstractOpenViduTestAppE2eTest.java:195-207 | 2k fields make k `name=value` terms |
| Config.Query | openvidu-test-e2e/src/test/java/io/openvidu/test/e2e/AbstractOpenViduTestAppE2eTest.java:195-207 | the query string `f0=f1&f2=f3&…` the loop is to build |
| Config.QuerySnoc | openvidu-test-e2e/src/test/java/io/openvidu/test/e2e/AbstractOpenViduTestAppE2eTest.java:195-207 | adding a pair appends `&name=value`, with no `&` before the first pair |
| Config.BuildLayoutParams | openvidu-test-e2e/src/test/java/io/openvidu/test/e2e/AbstractOpenViduTestAppE2eTest.java:189-207 | an odd field count is an error carrying that count; an even one gives `f0=f1&…&f(2k-2)=f(2k-1)` |
| Config.TermsOfPairs | openvidu-test-e2e/src/test/java/io/openvidu/test/e2e/AbstractOpenViduTestAppE2eTest.java:195-207 | splitting each term at `=` gives back the fields |
| Config.QueryRoundTrip | openvidu-test-e2e/src/test/java/io/openvidu/test/e2e/AbstractOpenViduTestAppE2eTest.java:185-209 | for a non-empty, even list of fields, none holding `&` or `=`, parsing the built query string gives back the fields |
| Config.LayoutParams | openvidu-test-e2e/src/test/java/io/openvidu/test/e2e/AbstractOpenViduTestAppE2eTest.java:188-207 | splitting the property, refusing an odd field count, otherwise the query string |
| Config.LayoutParamsAccepted | openvidu-test-e2e/src/test/java/io/openvidu/test/e2e/AbstractOpenViduTestAppE2eTest.java:188-193 | the property is accepted exactly when it holds an odd number of commas |
| Config.EmptyLayoutParamsRefused | openvidu-test-e2e/src/test/java/io/openvidu/test/e2e/AbstractOpenViduTestAppE2eTest.java:188-193 | an empty property is refused as one field |
| Config.Property | openvidu-test-e2e/src/test/java/io/openvidu/test/e2e/AbstractOpenViduTestAppE2eTest.java:173 | a property is present exactly when the key is set, with the key's value |
| Config.OverridePresent | openvidu-test-e2e/src/test/java/io/openvidu/test/e2e/AbstractOpenViduTestAppE2eTest.java:173-176 | a present property replaces the setting; an absent one keeps it |
| Config.OverrideVersion | openvidu-test-e2e/src/test/java/io/openvidu/test/e2e/AbstractOpenViduTestAppE2eTest.java:230-233 | only a present, non-blank property replaces a browser version |
| Config.VersionStaysNonBlank | openvidu-test-e2e/src/test/java/io/openvidu/test/e2e/AbstractOpenViduTestAppE2eTest.java:230-251 | a non-blank browser version stays non-blank whatever the properties say |
| Config.OverrideRulesDiffer | openvidu-test-e2e/src/test/java/io/openvidu/test/e2e/AbstractOpenViduTestAppE2eTest.java:224-233 | the two rules disagree exactly on a present blank property that differs from the setting |
| Environment.TestConfig.constructor | openvidu-test-e2e/src/test/java/io/openvidu/test/e2e/AbstractOpenViduTestAppE2eTest.java:70-95 | the default settings |
| Environment.TestConfig.LoadEnvironmentVariables | openvidu-test-e2e/src/test/java/io/openvidu/test/e2e/AbstractOpenViduTestAppE2eTest.java:172-263 | URLs are overridden; the load fails exactly when the layout property is present with an odd field count; the layout setting is rebuilt only on success; the later settings follow their rules on success and are unchanged on failure |
| Environment.TestConfig.LoadLayoutSettings | openvidu-test-e2e/src/test/java/io/openvidu/test/e2e/AbstractOpenViduTestAppE2eTest.java:173-209 | the three settings read before the assertion, and whether it fails |
| Environment.TestConfig.LoadServerSettings | openvidu-test-e2e/src/test/java/io/openvidu/test/e2e/AbstractOpenViduTestAppE2eTest.java:212-262 | every later setting follows its override rule; the layout settings are unchanged |
| Environment.TestConfig.LoadServerUrls | openvidu-test-e2e/src/test/java/io/openvidu/test/e2e/AbstractOpenViduTestAppE2eTest.java:212-227 | server URL, secret and image take any present property |
| Environment.TestConfig.LoadBrowserVersions | openvidu-test-e2e/src/test/java/io/openvidu/test/e2e/AbstractOpenViduTestAppE2eTest.java:230-251 | the four browser versions take only non-blank properties |
| Environment.TestConfig.LoadLicenses | openvidu-test-e2e/src/test/java/io/openvidu/test/e2e/AbstractOpenViduTestAppE2eTest.java:254-262 | both licence settings take any present property |
| MediaServer.PrefixesExclusive | openvidu-test-e2e/src/test/java/io/openvidu/test/e2e/AbstractOpenViduTestAppE2eTest.java:70-71 | no image starts with both names |
| MediaServer.Select | openvidu-test-e2e/src/test/java/io/openvidu/test/e2e/AbstractOpenViduTestAppE2eTest.java:488-502 | Kurento exactly when the image starts with the Kurento name, mediasoup exactly when it starts with the mediasoup name, otherwise an unrecognised-image error |
| MediaServer.RunOptions | openvidu-test-e2e/src/test/java/io/openvidu/test/e2e/AbstractOpenViduTestAppE2eTest.java:490-498 | the `docker run` options of each media server, with the licences only in the mediasoup ones |
| MediaServer.StartCommand | openvidu-test-e2e/src/test/java/io/openvidu/test/e2e/AbstractOpenViduTestAppE2eTest.java:486-502 | a start command exists exactly when the image is recognised |
| MediaServer.StartCommandRunsImage | openvidu-test-e2e/src/test/java/io/openvidu/test/e2e/AbstractOpenViduTestAppE2eTest.java:490-498 | the command starts with `docker run` and ends with the image |
| MediaServer.StartCommandPassesLicense | openvidu-test-e2e/src/test/java/io/openvidu/test/e2e/AbstractOpenViduTestAppE2eTest.java:494-498 | the mediasoup command passes both licence settings |
| MediaServer.KurentoIgnoresLicense | openvidu-test-e2e/src/test/java/io/openvidu/test/e2e/AbstractOpenViduTestAppE2eTest.java:490-491 | the Kurento command is the same whatever the licence settings |
| MediaServer.GrepKey | openvidu-test-e2e/src/test/java/io/openvidu/test/e2e/AbstractOpenViduTestAppE2eTest.java:516-521 | the grep key is the selected image name followed by `:` |
| MediaServer.StopCommand | openvidu-test-e2e/src/test/java/io/openvidu/test/e2e/AbstractOpenViduTestAppE2eTest.java:513-526 | a stop command exists exactly when the image is recognised |
| MediaServer.StopCommandGrepsFor | openvidu-test-e2e/src/test/java/io/openvidu/test/e2e/AbstractOpenViduTestAppE2eTest.java:514-526 | the command is the template with its one placeholder replaced by the grep key |
| MediaServer.RecordingExtension | openvidu-test-e2e/src/test/java/io/openvidu/test/e2e/AbstractOpenViduTestAppE2eTest.java:559-568 | `webm` exactly when the image contains the Kurento name, `mkv` exactly when it contains only the mediasoup name, otherwise an error |
| MediaServer.ExtensionAgreesWithSelection | openvidu-test-e2e/src/test/java/io/openvidu/test/e2e/AbstractOpenViduTestAppE2eTest.java:559-568 | an image started as Kurento records `webm`, and one started as mediasoup records `mkv` unless it also contains the Kurento name |
| MediaServer.RegistryQualifiedKurento | openvidu-test-e2e/src/test/java/io/openvidu/test/e2e/AbstractOpenViduTestAppE2eTest.java:559-568 | an image with a registry prefix gets an extension but no start command |
| JsonMerge.Lookup | openvidu-test-e2e/src/test/java/io/openvidu/test/e2e/AbstractOpenViduTestAppE2eTest.java:549-555 | a name has a value exactly when it is a member |
| JsonMerge.Remove | openvidu-test-e2e/src/test/java/io/openvidu/test/e2e/AbstractOpenViduTestAppE2eTest.java:550 | `remove(name)`: that name is gone, the others stay, still distinct |
| JsonMerge.Put | openvidu-test-e2e/src/test/java/io/openvidu/test/e2e/AbstractOpenViduTestAppE2eTest.java:551 | `add(name, value)`: the name is then a member and maps to `value`, and every other name keeps its value |
| JsonMerge.WithoutKeys | openvidu-test-e2e/src/test/java/io/openvidu/test/e2e/AbstractOpenViduTestAppE2eTest.java:550 | removing names leaves exactly the other names, still distinct |
| JsonMerge.PutAbsent | openvidu-test-e2e/src/test/java/io/openvidu/test/e2e/AbstractOpenViduTestAppE2eTest.java:551 | adding a new name appends it last |
| JsonMerge.OverrideStep | openvidu-test-e2e/src/test/java/io/openvidu/test/e2e/AbstractOpenViduTestAppE2eTest.java:549-552 | one remove-then-add round extends the merged prefix by that member |
| JsonMerge.Merged | openvidu-test-e2e/src/test/java/io/openvidu/test/e2e/AbstractOpenViduTestAppE2eTest.java:546-557 | the object `mergeJson` returns: the originals not overridden, then the overriding members, with the removed names taken out |
| JsonMerge.MergeJson | openvidu-test-e2e/src/test/java/io/openvidu/test/e2e/AbstractOpenViduTestAppE2eTest.java:546-557 | the object after overriding and removing is `Merged`, and names stay distinct |
| JsonMerge.MergedOrder | openvidu-test-e2e/src/test/java/io/openvidu/test/e2e/AbstractOpenViduTestAppE2eTest.java:549-555 | the untouched original members come first in their order, then the overriding members in theirs, without the removed names |
| JsonMerge.MergedLookup | openvidu-test-e2e/src/test/java/io/openvidu/test/e2e/AbstractOpenViduTestAppE2eTest.java:549-555 | a removed name is absent; an overridden name has its new value; any other name keeps its original value |
| JsonMerge.MergeIdempotent | openvidu-test-e2e/src/test/java/io/openvidu/test/e2e/AbstractOpenViduTestAppE2eTest.java:546-557 | merging the same properties again changes nothing |
| Participants.GracefullyLeaveParticipants | openvidu-test-e2e/src/test/java/io/openvidu/test/e2e/AbstractOpenViduTestAppE2eTest.java:469-479 | three steps per participant: pressing ENTER on the remove-user button, a wait for j disconnections, and a wait for the accumulated destroyed-connection count; no steps for a non-positive count |
| Participants.DestroyedTarget | openvidu-test-e2e/src/test/java/io/openvidu/test/e2e/AbstractOpenViduTestAppE2eTest.java:474-476 | the accumulated `connectionDestroyed` target after round j |
| Participants.Round | openvidu-test-e2e/src/test/java/io/openvidu/test/e2e/AbstractOpenViduTestAppE2eTest.java:472-477 | the three steps of round j |
| Participants.SumClosedForm | openvidu-test-e2e/src/test/java/io/openvidu/test/e2e/AbstractOpenViduTestAppE2eTest.java:474-476 | the sum (n-1) + … + (n-m), which is the accumulated count after m < n rounds, equals mn - m(m+1)/2 |
| Participants.LastTarget | openvidu-test-e2e/src/test/java/io/openvidu/test/e2e/AbstractOpenViduTestAppE2eTest.java:474-477 | the last round waits for n(n-1)/2 destroyed connections, the same as the round before |
| Participants.TargetMonotone | openvidu-test-e2e/src/test/java/io/openvidu/test/e2e/AbstractOpenViduTestAppE2eTest.java:474-477 | the destroyed-connection target never decreases |
| FileWait.Wrap32 | openvidu-test-e2e/src/test/java/io/openvidu/test/e2e/AbstractOpenViduTestAppE2eTest.java:576 | the result is the 32-bit value congruent to the input |
| FileWait.JavaDiv | openvidu-test-e2e/src/test/java/io/openvidu/test/e2e/AbstractOpenViduTestAppE2eTest.java:576 | division truncates toward zero |
| FileWait.MaxLoops | openvidu-test-e2e/src/test/java/io/openvidu/test/e2e/AbstractOpenViduTestAppE2eTest.java:576 | the loop bound in 32-bit arithmetic, always within the range a wrapped product allows |
| FileWait.MaxLoopsInRange | openvidu-test-e2e/src/test/java/io/openvidu/test/e2e/AbstractOpenViduTestAppE2eTest.java:576 | up to 2147483 seconds the loop bound is ten rounds per second |
| FileWait.MaxLoopsOverflow | openvidu-test-e2e/src/test/java/io/openvidu/test/e2e/AbstractOpenViduTestAppE2eTest.java:576 | from 2147484 up to 4294967 seconds the loop bound is negative |
| FileWait.MaxLoopsWrapsBack | openvidu-test-e2e/src/test/java/io/openvidu/test/e2e/AbstractOpenViduTestAppE2eTest.java:576 | at 4294968 seconds the loop bound is 7 |
| FileWait.Available | openvidu-test-e2e/src/test/java/io/openvidu/test/e2e/AbstractOpenViduTestAppE2eTest.java:584 | `Files.exists(path) && Files.isReadable(path)` |
| FileWait.BytesAfter | openvidu-test-e2e/src/test/java/io/openvidu/test/e2e/AbstractOpenViduTestAppE2eTest.java:584-590 | the size held after k polls; a failed size read keeps the previous one |
| FileWait.BiggerAt | openvidu-test-e2e/src/test/java/io/openvidu/test/e2e/AbstractOpenViduTestAppE2eTest.java:584-591 | poll k sees the file present, readable and over kbs whole KB |
| FileWait.Classify | openvidu-test-e2e/src/test/java/io/openvidu/test/e2e/AbstractOpenViduTestAppE2eTest.java:599-609 | the timeout error: missing, else unreadable, else too small with the last size |
| FileWait.WaitUntilFileExistsAndIsBiggerThan | openvidu-test-e2e/src/test/java/io/openvidu/test/e2e/AbstractOpenViduTestAppE2eTest.java:570-616 | at most maxLoops rounds; success exactly when some round within the bound sees the file available and larger than kbs KB, and it stops at the first; on timeout the error is missing, unreadable or too small, in that order, with the last size |
| FileWait.ThresholdIsStrict | openvidu-test-e2e/src/test/java/io/openvidu/test/e2e/AbstractOpenViduTestAppE2eTest.java:591 | a file of exactly kbs KB plus less than one KB is never accepted |
| Chat.Normalize | openvidu-components-angular/projects/openvidu-angular/src/lib/services/chat/chat.service.ts:61 | the regular expression `/ +(?= )/g` replaced by nothing: each space followed by a space is deleted |
| Chat.NormalizeHead | openvidu-components-angular/projects/openvidu-angular/src/lib/services/chat/chat.service.ts:61 | normalisation keeps the first character |
| Chat.NormalizeNoDoubleSpace | openvidu-components-angular/projects/openvidu-angular/src/lib/services/chat/chat.service.ts:61 | the normalised message has no two consecutive spaces |
| Chat.NormalizeFixed | openvidu-components-angular/projects/openvidu-angular/src/lib/services/chat/chat.service.ts:61 | a message without double spaces is unchanged |
| Chat.NormalizeIdempotent | openvidu-components-angular/projects/openvidu-angular/src/lib/services/chat/chat.service.ts:61 | normalising twice is normalising once |
| Chat.NormalizeKeepsNonSpaces | openvidu-components-angular/projects/openvidu-angular/src/lib/services/chat/chat.service.ts:61 | every character other than a space is kept, in order |
| Chat.TrimSpaces | openvidu-components-angular/projects/openvidu-angular/src/lib/services/chat/chat.service.ts:61 | removing leading spaces leaves a string that starts with something else |
| Chat.SqueezeAfterSpace | openvidu-components-angular/projects/openvidu-angular/src/lib/services/chat/chat.service.ts:61 | after a space the reference scan skips the following spaces |
| Chat.NormalizeSpaceThen | openvidu-components-angular/projects/openvidu-angular/src/lib/services/chat/chat.service.ts:61 | a space followed by spaces normalises to one space |
| Chat.NormalizeIsSqueeze | openvidu-components-angular/projects/openvidu-angular/src/lib/services/chat/chat.service.ts:61 | normalisation equals a left-to-right scan that reduces each run of spaces to one space |
| Chat.NormalizeBlank | openvidu-components-angular/projects/openvidu-angular/src/lib/services/chat/chat.service.ts:61-62 | the guard's `''` or `' '` is reached exactly by messages made only of spaces |
| Chat.OutgoingSignal | openvidu-components-angular/projects/openvidu-angular/src/lib/services/chat/chat.service.ts:60-70 | nothing is sent exactly for messages of spaces only; otherwise the signal carries the webcam nickname and the normalised message, which equals the run-squeezing reference scan, has no double spaces and keeps the other characters |
| Chat.UpperChar | openvidu-components-angular/projects/openvidu-angular/src/lib/services/chat/chat.service.ts:50 | lower-case ASCII letters become upper case; other characters are unchanged |
| Chat.ToUpper | openvidu-components-angular/projects/openvidu-angular/src/lib/services/chat/chat.service.ts:50 | each character is upper-cased, character by character, into a new string |
| Chat.Notification | openvidu-components-angular/projects/openvidu-angular/src/lib/services/chat/chat.service.ts:49-53 | the snackbar options: upper-cased nickname with ` sent a message`, class `messageSnackbar`, button `READ` |
| Chat.ChatService.constructor | openvidu-components-angular/projects/openvidu-angular/src/lib/services/chat/chat.service.ts:23-24 | an empty list, published once |
| Chat.ChatService.OnChatSignal | openvidu-components-angular/projects/openvidu-angular/src/lib/services/chat/chat.service.ts:37-57 | one entry appended, local exactly when the sender is an own connection, with the data's nickname and message; a notification naming the upper-cased sender exactly when the menu is closed; the new list published |
| Chat.ChatService.SendMessage | openvidu-components-angular/projects/openvidu-angular/src/lib/services/chat/chat.service.ts:60-70 | exactly the signal of `OutgoingSignal` is sent, and nothing else changes |

## Left out
- Browser automation, Docker and Testcontainers, the REST client, sleeps,
  clocks, `System.exit` and logging: these are external. Their effects appear
  only as the `Step` values, command strings and results the model returns.
- Execution of the built Docker commands: the model builds the command text only.
- JSON text parsing and `mergeJson`'s swap between `'` and `"`: objects are
  modelled after parsing, as ordered member lists.
- Duplicate member names in a parsed object: `MergeJson` requires distinct
  names, as Gson keeps them.
- The `waitForVideoDuration` regular expression: it matches floating-point
  text from the browser.
- The real file system: `Files.exists`, `isReadable` and `size` are an
  indexed sequence of observations, and a failed size read is a missing size.
- Angular and RxJS machinery: dependency injection, `BehaviorSubject`,
  `session.on` registration, `JSON.parse` of the signal data and the toggle
  callback passed with a notification.
- Chat.ChatService.OnChatSignal: `isMyOwnConnection` is membership in a given
  set of own connection ids, and `isMenuOpened` is a parameter.
- Chat.ChatService.OnChatSignal: published lists are recorded as values. The
  aliasing of one mutable array passed to every subscriber is not captured.
- Chat.UpperChar, Chat.ToUpper: upper-case ASCII letters only, not the full Unicode mapping of
  `toUpperCase`.
- Chat.ChatService.OnChatSignal: signal data without a nickname, which throws
  when upper-cased, is not modelled (the nickname is always a string).
- Participants.GracefullyLeaveParticipants: the participant count is an
  unbounded integer, so 32-bit overflow is not modelled. This covers the
  accumulated count and the loop counter: with `Integer.MAX_VALUE`
  participants, `j++` wraps and the Java loop never ends, whereas the model
  takes 3n steps.
- Error messages are datatype values, not the exact text of the exceptions.
