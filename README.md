# RedditApi8 decoding core and session, in Dafny

This project models the core of the RedditApi8 C# reddit client in Dafny and
proves properties of that model. The core has two parts.

**Decoding.** A JSON envelope `{"kind": …, "data": …}` becomes a `Thing`.
- The data contract binds `data` to the god object `Data` member by member, in wire order.
- `created` and `created_utc` go through the private Unix-second helpers, and `edited` through its tri-state setter.
- `OnDeserialized` then projects `Data` onto the variant its tag selects (`Helper.ToData<T>`). The projection copies every declared property of the variant, by name, through `PropertyInfo.SetValue`.
- `Thing.DeserializeList` normalises array payloads textually before parsing.
- `Thing.GetDataList<T>` filters a listing's children by record class.

**Session.** `RedditClient` holds the error list, the cookie, the logged-in flag and the default request headers.
- The model covers login, the logged-out guard on `GetMeAsync`, the page URI with its query string, and the mapping from a listing to a `List<LinkData>`.

Modules, one or more per source file:

| module | file | models |
|---|---|---|
| `Wrappers` | wrappers.dfy | `Option` and `Outcome` (a value, or a thrown exception) |
| `Clock` | clock.dfy | `DateTime` ticks and the Unix-second conversions, with C#'s truncating `/` |
| `Records` | records.dfy | tags, record classes, property names and types, boxed values, the `SetValue` rule |
| `Shapes` | shapes.dfy | the declared property table of `Data` and of each variant |
| `Conversions` | conversions.dfy | the private `Created64`/`CreatedUtc64`/`EditedObject` helpers; a record object as a class |
| `Helper` | helper.dfy | `ToData<T>`: the projection, as a specification and as the reflective copy loop |
| `Text` | text.dfy | the two textual normalisations in `DeserializeList` |
| `Envelope` | envelope.dfy | `Thing`: tag names, member binding, `OnDeserialized`, `DeserializeList`, `GetDataList` |
| `Binding` | binding.dfy | what the binding means: the wire member each property and each `Thing` setter takes its value from |
| `Serializer` | serializer.dfy | the serializer's run, setter by setter, on a `Data` object and a `Thing` |
| `Samples` | samples.dfy | the account reply of the client's `GetMeAsync` test, decoded |
| `Client` | client.dfy | `RedditClient`: login, `GetMe`, the page URI, `GetPage`, `ApiGet` |

Foreign code becomes a parameter of the model:
- **JSON text.** The parser is the function `parse`, which yields a JSON tree or fails.
- **HTTP.** Every client call takes the server's reply as an argument: a status flag, and the parts of the body the client reads. Each call appends the request it issues to a log field, `requests`.
- **`Thing.Deserialize`.** It is not part of this model. Its result on a GET body (an envelope, null, or a throw) is part of the GET reply.
- **`MessageData`.** It is not part of this model. Its property table is the parameter `message`: the decoder takes it as an argument and passes it on to every step.

How things are represented:
- **Properties.** Reflection by name becomes an enum `Prop`: two classes share a property exactly when they use the same constructor. A record is its class plus a finite map from its stored properties to boxed values.
- **`SetValue`.** A value that conforms to the declared type is stored as it is. A null stored into `bool`, `long` or `DateTime` becomes that type's default. Anything else throws.
- **The serializer.** Members are bound in wire order. A later member wins, and unknown keys are skipped. Strings, booleans and integers bind only to members of that kind. Null binds only to reference and nullable members. An object binds to `Thing`, and an array of envelopes to `List<Thing>`.
- **The page parameters.** The dictionary is a sequence of key/value pairs in its iteration order. A null dictionary is the empty sequence.
- **The session.** Each client operation is a step function on a `Session` value. The methods of the class `RedditClient` carry out that step on the object's fields, and their contracts equal the step function.

Where a reader might expect otherwise, the model follows the code:
- **Empty replies.** One might expect a comment whose replies are `""` to decode to an empty listing. In the code, `"replies": "",` is removed only from array payloads (`Thing.cs:146-152`), and a string never binds to a `Thing`.
- **Comments.** No `t1` comment ever decodes: `Data.Gilded` is a `long` but `CommentData.Gilded` is a `bool` (`CommentData.cs:80`, `Data.cs:131`), so the projection throws. `Envelope.DecodeThing` states this. The comments test (`RedditClientTest.cs:145-149`) expects a non-empty comment list from a reply whose comments carry `"gilded": 0`. By the model that reply fails to decode, so the model and that test disagree.
- **`edited: false`.** One might read it as "not edited". During decoding only `Data`'s setter runs, and it does store null. `LinkData`'s and `CommentData`'s own setters fall through: `false` stores the epoch and `true` stores one second after it (`LinkData.cs:397-402`).
- **Nulls.** One might expect a null field to stay absent. A null `subscribers` projects to `0` on `SubredditData` (`SubredditData.cs:102`).
- **Errors.** One might expect a missing field to be reported distinctly. Every decoding failure is a null result (`Thing.cs:164-167`).
- **Login errors.** One might expect every error string to be recorded. Only the strings of the first entry of `errors` are recorded (`RedditClient.cs:110-116`). Later entries are never inspected, and the modhash is not stored.
- **`GetMeAsync`.** `ApiGetAsync` is documented to return null when the GET fails (`RedditClient.cs:208`), which suggests that `GetMeAsync` returns null too. When logged in, that null makes `.Data` throw (`RedditClient.cs:144`), so `GetMeAsync` throws.

## Model

| member | source | states |
|---|---|---|
| Clock.TruncSeconds | RedditApi8/Data.cs:1121 | dividing ticks by ticks per second truncates toward zero, for a positive as well as a negative dividend |
| Clock.UnixSecondsRoundTrip | RedditApi8/Data.cs:1116-1128 | setting a timestamp to `n` Unix seconds and reading it back gives `n` |
| Clock.WholeSeconds | RedditApi8/Data.cs:1121 | the getter drops the sub-second part toward the epoch: at most a second off, on the epoch's side |
| Clock.FromUnixSeconds | RedditApi8/Data.cs:1126 | definition of `epoch.AddSeconds(n)` for whole seconds; `UnixSecondsRoundTrip` states that `UnixSeconds` undoes it |
| Clock.UnixSeconds | RedditApi8/Data.cs:1121 | definition of the getter's `Subtract(epoch).Ticks / 10000000`; `TruncSeconds` and `WholeSeconds` state how it rounds |
| Records.Default | RedditApi8/Helper.cs:47 | a fresh instance's property conforms to its type, and is null exactly for reference and nullable types |
| Records.Assign | RedditApi8/Helper.cs:58 | `SetValue` succeeds iff the value conforms, or is null and the type is a value type; the stored value conforms, and differs from the argument only as a null turned into the default |
| Records.AssignIdempotent | RedditApi8/Helper.cs:58 | storing a stored value again changes nothing |
| Shapes.DataType | RedditApi8/Data.cs:24-1107 | definition: the declared type of each public property of `Data`, region by region; the `DataCovers` rows state that every variant agrees with it |
| Shapes.VariantType | RedditApi8/AccountData.cs:30-173 | definition: the declared type of each property on each variant class (the files cited in the `DataCovers` rows), or none; the `DataCovers` rows compare it with `DataType` |
| Shapes.Stored | RedditApi8/Helper.cs:49-57 | an instance stores exactly the declared properties other than the three private helpers, each with its declared type |
| Shapes.StoredSameTyped | RedditApi8/Helper.cs:49-58 | a class that declares its properties with `Data`'s types (but one) stores them with `Data`'s stored types |
| Shapes.SameTypedProjectable | RedditApi8/Helper.cs:58 | same-typed properties are assignable ones |
| Shapes.DataCoversListing | RedditApi8/ListingData.cs:33-66 | every `ListingData` property is declared on `Data` with the same type |
| Shapes.DataCoversAccount | RedditApi8/AccountData.cs:30-173 | every `AccountData` property is declared on `Data` with the same type |
| Shapes.DataCoversLink | RedditApi8/LinkData.cs:25-404 | every `LinkData` property is declared on `Data` with the same type |
| Shapes.DataCoversMore | RedditApi8/MoreData.cs:24-55 | `Count`, `Id` and `Name` are declared on `Data` with the same types |
| Shapes.DataCoversSubreddit | RedditApi8/SubredditData.cs:30-166 | every `SubredditData` property is declared on `Data` with the same type, except `Subscribers`: `long?` on `Data`, `long` here |
| Shapes.SubscribersStoredAsLong | RedditApi8/SubredditData.cs:101-102 | the subreddit variant stores `Subscribers` as a `long` |
| Shapes.SubredditProjectable | RedditApi8/SubredditData.cs:30-166 | each stored subreddit property can take the value of `Data`'s property of that name |
| Shapes.CommentIncompatible | RedditApi8/CommentData.cs:53-80 | `Likes`, `Replies` and `Gilded` on `Data` cannot be stored in the comment variant's properties of those names |
| Conversions.EditedSeconds | RedditApi8/Data.cs:1159-1167 | the `EditedObject` getter is null exactly when `Edited` is null |
| Conversions.EditedSetterOf | RedditApi8/LinkData.cs:395-403 | definition: which `edited` setter each class declares: `Data` returns after a boolean (Data.cs:1171-1175), `LinkData` falls through after `value is bool`, `CommentData` falls through after `GetType()` (CommentData.cs:275-280); `EditedValue` states what each stores |
| Conversions.EditedValue | RedditApi8/Data.cs:1169-1178 | the `edited` setter throws only for `CommentData` given null; otherwise `Edited` is null or a `DateTime` |
| Conversions.SecondsRoundTrip | RedditApi8/Data.cs:1116-1128 | the `created` helpers give back the seconds they were set to |
| Conversions.EditedNumberRoundTrip | RedditApi8/Data.cs:1156-1179 | a numeric `edited` is stored as that instant by every setter, and its getter reports the same seconds |
| Conversions.EditedBooleanSetters | RedditApi8/LinkData.cs:395-403 | a boolean `edited`: `Data` stores null; the link and comment setters fall through and store the epoch plus 0 or 1 seconds |
| Conversions.EditedNullSetters | RedditApi8/CommentData.cs:273-281 | a null `edited`: `Data` and `LinkData` store the epoch, and `CommentData` throws |
| Conversions.CreatedHelperDeclared | RedditApi8/AccountData.cs:140-141 | a class declares `Created64` exactly when it is `Data`, a comment, an account, a link or a subreddit |
| Conversions.CreatedUtcHelperDeclared | RedditApi8/AccountData.cs:161-162 | the same for `CreatedUtc64` |
| Conversions.EditedHelperDeclared | RedditApi8/CommentData.cs:260-261 | a class declares `EditedObject` exactly when it has an `edited` setter (`Data`, links, comments) |
| Conversions.StoredTimestamps | RedditApi8/SubredditData.cs:133-166 | the classes with the timestamp helpers store `Created` and `CreatedUtc` as `DateTime` |
| Conversions.StoredEdited | RedditApi8/LinkData.cs:382-404 | the classes with an `edited` setter store `Edited` as `DateTime?` |
| Conversions.Defaults | RedditApi8/Helper.cs:47 | a created instance holds a conforming default in every stored property, null exactly in those of reference or nullable type |
| Conversions.StorePreservesTyping | RedditApi8/Helper.cs:58 | storing a conforming value keeps a record well typed |
| Conversions.ToInt64 | RedditApi8/Data.cs:1177 | definition of `Convert.ToInt64` on the boxed `edited` value; `EditedNullSetters` and `EditedBooleanSetters` state what it gives for null and for a boolean |
| Conversions.DataObject.constructor | RedditApi8/Helper.cs:47 | `Activator.CreateInstance`: the class's stored table, every property at its default |
| Conversions.DataObject.Created64 | RedditApi8/Data.cs:1119-1122 | definition of the getter; `SetCreated64` states that it reads back the seconds just set |
| Conversions.DataObject.CreatedUtc64 | RedditApi8/Data.cs:1139-1142 | definition of the getter; `SetCreatedUtc64` states that it reads back the seconds just set |
| Conversions.DataObject.EditedObject | RedditApi8/Data.cs:1159-1167 | the getter is null exactly when `Edited` is null |
| Conversions.DataObject.Store | RedditApi8/Data.cs:33 | a public auto-property setter: stores a value of the declared type, only that property changes, and the record stays well typed |
| Conversions.DataObject.SetCreated64 | RedditApi8/Data.cs:1124-1127 | only `Created` changes, to the epoch plus `n` seconds, and the getter then reports `n` |
| Conversions.DataObject.SetCreatedUtc64 | RedditApi8/Data.cs:1144-1147 | only `CreatedUtc` changes, to the epoch plus `n` seconds, and the getter then reports `n` |
| Conversions.DataObject.SetEditedObject | RedditApi8/Data.cs:1169-1178 | the setter of the object's own class: throws iff `EditedValue` does, changing nothing; otherwise only `Edited` changes, to that value |
| Conversions.DataObject.SetValue | RedditApi8/Helper.cs:58 | throws iff the property is not stored or the value cannot be assigned; otherwise only that property changes, to the assigned value |
| Helper.Projection | RedditApi8/Helper.cs:43-63 | `ToData<T>` succeeds iff every target property exists on the source with an assignable value; the result is well typed and each property holds the source value, or the default for a null |
| Helper.MissingPropertyFails | RedditApi8/Helper.cs:58 | a target property the source lacks makes the projection throw |
| Helper.ProjectionRestricts | RedditApi8/Helper.cs:49-60 | when every value conforms, the projection is the source restricted to the target's properties |
| Helper.ProjectionIdempotent | RedditApi8/Helper.cs:43-63 | projecting a projection onto the same class gives it back |
| Helper.ProjectedValue | RedditApi8/Helper.cs:58 | each copied property holds what `SetValue` stores from the source value |
| Helper.CompatibleAssigns | RedditApi8/Helper.cs:58 | a value of a compatible type is always assignable |
| Helper.ProjectableSucceeds | RedditApi8/Helper.cs:49-60 | a well-typed source whose table is compatible with the target's always projects |
| Helper.SameTypedRestricts | RedditApi8/Helper.cs:49-60 | a source with the target's own types projects to its restriction |
| Helper.SameTypedCopied | RedditApi8/Helper.cs:58 | properties that have the same type on both sides are copied unchanged |
| Helper.VariantProjects | RedditApi8/Thing.cs:205-224 | a decoded `Data` always projects onto the listing, account, link and more variants, and every property is copied unchanged |
| Helper.SubredditProjects | RedditApi8/Thing.cs:220-221 | a decoded `Data` always projects onto the subreddit variant, every property but `Subscribers` unchanged |
| Helper.NullBecomesZero | RedditApi8/Helper.cs:58 | copying into a `long` property turns a null into 0 and keeps a number |
| Helper.SubscribersProjected | RedditApi8/SubredditData.cs:101-102 | the subreddit variant's `Subscribers` is 0 for a null source value and the source number otherwise |
| Helper.CommentProjectionFails | RedditApi8/Thing.cs:208-209 | a decoded `Data` never projects onto the comment variant: its `long` `Gilded` cannot be stored in a `bool` |
| Helper.Declared | RedditApi8/Helper.cs:49 | definition: `DeclaredProperties`: exactly the properties the class declares |
| Helper.DeclaredStored | RedditApi8/Helper.cs:49-56 | the declared properties that are not skipped by name are exactly the stored ones |
| Helper.CopiedAll | RedditApi8/Helper.cs:49-60 | a loop that has visited every declared property has produced the projection |
| Helper.CopyDeclared | RedditApi8/Helper.cs:49-60 | the copy loop over the declared properties throws iff the projection does, and otherwise leaves the target holding the projection |
| Helper.ToData | RedditApi8/Helper.cs:43-63 | returns a fresh instance of the target class iff the projection succeeds, holding exactly the projection |
| Text.RemoveAll | RedditApi8/Thing.cs:149 | definition of `String.Replace(pat, "")`; the next five rows state its properties |
| Text.RemoveAllLength | RedditApi8/Thing.cs:149 | each removed occurrence shortens the text by the pattern's length |
| Text.RemoveAllUnchanged | RedditApi8/Thing.cs:149 | text without the pattern is unchanged |
| Text.RemovedOccurs | RedditApi8/Thing.cs:149 | something is removed only when the pattern occurs |
| Text.RemoveAllKeepsOrder | RedditApi8/Thing.cs:149 | the remaining text is a subsequence of the input |
| Text.RemoveEmptyReplies | RedditApi8/Thing.cs:149 | the replies normalisation removes exactly 14 characters per occurrence |
| Text.ScanBody | RedditApi8/Thing.cs:152 | the lazy `.+?` scan finds the earliest end of a newline-free body, or there is none |
| Text.MatchEnd | RedditApi8/Thing.cs:152 | a match at the front ends at the earliest position any match can end, and `None` means no match starts there |
| Text.RemoveChildIdLists | RedditApi8/Thing.cs:152 | definition of the `Regex.Replace`; the next five rows state its properties |
| Text.RemoveChildIdListsUnchanged | RedditApi8/Thing.cs:152 | text without `"children": ["` is unchanged |
| Text.RemoveChildIdListsKeepsOrder | RedditApi8/Thing.cs:152 | the remaining text is a subsequence of the input |
| Text.RemoveChildIdListsShortens | RedditApi8/Thing.cs:152 | the removal never lengthens the text |
| Text.RemoveChildIdListsKeepsPrefix | RedditApi8/Thing.cs:152 | when no match starts before position `i`, the first `i` characters are kept unchanged and in place, and the rest is processed on its own |
| Text.RemoveChildIdListsFirstMatch | RedditApi8/Thing.cs:152 | a first match at `i`, `e` characters long, is removed whole: the text before it is kept, and the scan resumes right after it |
| Text.Normalise | RedditApi8/Thing.cs:148-152 | definition: the replies removal, then the child-id-list removal, in that order; `DeserializeList` states where it is applied |
| Envelope.KindName | RedditApi8/Thing.cs:89-92 | definition of `ThingKind.ToString()`; `KindNameParses` states that `ParseKind` inverts it |
| Envelope.ParseKind | RedditApi8/Thing.cs:94-120 | definition of `Enum.Parse` over the seven names; `ParsedKindNamed` states that each accepted name is its tag's name |
| Envelope.KindNameParses | RedditApi8/Thing.cs:86-121 | the `kind` getter's name parses back to the same tag |
| Envelope.ParsedKindNamed | RedditApi8/Thing.cs:94-120 | a name the setter accepts is exactly the name of the tag it sets |
| Envelope.ClassOf | RedditApi8/Thing.cs:203-226 | definition of the `OnDeserialized` switch; `ClassOfInjective` states that it is one-to-one and never `Data` |
| Envelope.WireKey | RedditApi8/Data.cs:24-1179 | definition: the `DataMember` names of `Data`, region by region; `Binding.WireNameOfTarget` and `Binding.TargetInjective` state that every key names its own member and no two keys fill one property |
| Envelope.ClassOfInjective | RedditApi8/Thing.cs:203-226 | distinct tags select distinct variants, none of them `Data` |
| Envelope.WireKeysSkipDates | RedditApi8/Data.cs:1116-1157 | no wire key binds to `Created`, `CreatedUtc` or `Edited` themselves |
| Envelope.Over18WireKey | RedditApi8/SubredditData.cs:91-92 | `over_18` binds to `Over18`, and the subreddit's `over18` binds to nothing |
| Envelope.BoxedOf | RedditApi8/Data.cs:1156-1157 | the `object`-typed `edited` takes null, a boolean or a number |
| Envelope.Dispatch | RedditApi8/Thing.cs:195-227 | definition: `OnDeserialized` succeeds iff `InternalData` is present and projects onto the tag's variant; the record is that projection, of that class |
| Envelope.VariantsDispatch | RedditApi8/Thing.cs:205-224 | a decoded `Data` always dispatches for `Listing`, `t2`, `t3` and `more` |
| Envelope.SubredditDispatches | RedditApi8/Thing.cs:220-221 | a decoded `Data` always dispatches for `t5` |
| Envelope.CommentNeverDispatches | RedditApi8/Thing.cs:208-209 | a decoded `Data` never dispatches for `t1` |
| Envelope.NoCommentDispatch | RedditApi8/Thing.cs:208-209 | whatever state the envelope's members leave, the `t1` tag never dispatches |
| Envelope.DecodeThing | RedditApi8/Thing.cs:86-227 | a decoded envelope is an object whose record has its tag's class, and is never a comment; `Binding.DecodeThingMeaning` states which tag and record |
| Envelope.BindThing | RedditApi8/Thing.cs:86-130 | binding the envelope's members keeps `InternalData` a well-typed `Data`; `Binding.BindThingLastWins` states which members they come from |
| Envelope.Target | RedditApi8/Data.cs:1116-1157 | the property a `DataMember` key's setter writes: exactly the keys `Data` declares fill one, never a helper, and each public member's key fills that member itself |
| Envelope.BindMember | RedditApi8/Data.cs:1116-1178 | the setter a member runs on decode: `created` and `created_utc` through the helpers (Data.cs:1124-1147), `edited` through `EditedObject` (Data.cs:1169-1178), others through their own setter; the stored value always conforms to the property's type |
| Envelope.DecodeData | RedditApi8/Data.cs:22-1180 | a bound `data` object is a well-typed `Data` record; `Binding.DecodeDataFromWire` states which value each property holds |
| Envelope.BindData | RedditApi8/Data.cs:1109-1179 | binding members in wire order, through the helpers for the timestamps, keeps the record well typed; `Binding.BindDataLastWins` states which member each property takes |
| Envelope.DecodeValue | RedditApi8/Data.cs:104-131 | a bound value conforms to the member's type, and a null binds exactly where null conforms; `Binding.DecodeValueMirrors` states which value binds |
| Envelope.DecodeItems | RedditApi8/Data.cs:42-43 | a list binds entry by entry, in order and one element per entry, and fails exactly when some non-null entry fails |
| Envelope.ThingObject.constructor | RedditApi8/Thing.cs:69 | a fresh `Thing` has tag `Listing` and neither `InternalData` nor `Data` |
| Envelope.ThingObject.InternalKind | RedditApi8/Thing.cs:89-92 | the getter yields the name that parses to the current tag |
| Envelope.ThingObject.SetInternalKind | RedditApi8/Thing.cs:94-120 | throws iff the name is not one of the seven, changing nothing; otherwise only the tag changes, to that name's tag |
| Envelope.ThingObject.SetInternalData | RedditApi8/Thing.cs:129-130 | only `InternalData` changes |
| Envelope.ThingObject.OnDeserialized | RedditApi8/Thing.cs:196-227 | throws iff `Dispatch` fails, changing nothing; otherwise only `Data` changes, to the dispatched record |
| Envelope.SinglePayload | RedditApi8/Thing.cs:156-162 | a non-array payload yields a list of exactly one envelope |
| Envelope.ArrayPayload | RedditApi8/Thing.cs:153-154 | an array payload yields one element per array entry |
| Envelope.DeserializeList | RedditApi8/Thing.cs:137-168 | an empty payload is null; an array payload is normalised then bound as a list; any other payload is bound untouched as a single envelope |
| Envelope.ListingChildren | RedditApi8/Thing.cs:180 | children are read only from a listing record |
| Envelope.OfClass | RedditApi8/Thing.cs:177-189 | the filter succeeds iff no child is null, and keeps at most every child |
| Envelope.OfClassMembers | RedditApi8/Thing.cs:180-186 | a record is kept iff it has the requested class and is some child's record |
| Envelope.OfClassConcat | RedditApi8/Thing.cs:179-188 | the filter keeps order: filtering a concatenation concatenates the filtered runs |
| Envelope.GetDataList | RedditApi8/Thing.cs:177-189 | returns iff the envelope is a listing with non-null children, none of them null, and returns their records of the requested class, in order |
| Binding.DecodeValueMirrors | RedditApi8/Data.cs:104-131 | a member binds exactly the value its wire value denotes: a conforming scalar as itself, an object only into `Thing` as the envelope it decodes to, an array only into `List<Thing>`, the i-th element from the i-th entry |
| Binding.ListingKeyInverted | RedditApi8/Data.cs:24-67 | each key of the listing region names the member declared with that name |
| Binding.CommentKeyInverted | RedditApi8/Data.cs:69-337 | each key of the comment region names the member declared with that name |
| Binding.AccountKeyInverted | RedditApi8/Data.cs:339-498 | each key of the account region names the member declared with that name |
| Binding.LinkKeyInverted | RedditApi8/Data.cs:500-910 | each key of the link region names the member declared with that name |
| Binding.SubredditKeyInverted | RedditApi8/Data.cs:915-1067 | each key of the subreddit region names the member declared with that name |
| Binding.MoreKeyInverted | RedditApi8/Data.cs:1069-1107 | each key of the "more" region names the member declared with that name |
| Binding.HelperKeyNamed | RedditApi8/Data.cs:1116-1157 | `created`, `created_utc` and `edited` fill the `DateTime` their helper sets |
| Binding.WireNameOfTarget | RedditApi8/Data.cs:24-1179 | the property a key fills is declared under exactly that key, through its helper for a `DateTime` |
| Binding.TargetInjective | RedditApi8/Data.cs:24-1179 | two keys that fill the same property are the same key |
| Binding.DecodeDataSucceeds | RedditApi8/Data.cs:22-1180 | a `data` object binds iff every member whose key `Data` declares binds to its property; unknown keys never matter |
| Binding.BindDataLastWins | RedditApi8/Data.cs:22-1180 | from position `i` on, a property holds the bound value of the last member whose key fills it, and keeps its earlier value when none does |
| Binding.DecodeDataFromWire | RedditApi8/Data.cs:22-1180 | each stored property of a bound `data` object holds the bound value of the last member whose key fills it, and its default when no member does |
| Binding.BindDataUntouched | RedditApi8/Data.cs:22-1180 | a property that no member from `i` on fills keeps its value |
| Binding.DecodeDataUntouched | RedditApi8/Helper.cs:47 | a property that no member fills keeps the default of a fresh `Data` |
| Binding.NullableLongBinds | RedditApi8/Data.cs:997-998 | a `long?` member binds exactly a number, as itself, or null |
| Binding.BindThingLastWins | RedditApi8/Thing.cs:86-130 | the envelope's members bind iff each `kind` and `data` member binds; the tag is the last `kind` member's, `Listing` from a fresh `Thing` when there is none, and `InternalData` the last `data` member's |
| Binding.DecodeThingMeaning | RedditApi8/Thing.cs:86-227 | an envelope decodes iff its members bind and `OnDeserialized` dispatches on the tag and `InternalData` they leave; the result is that dispatch under that tag |
| Binding.EnvelopeDataFromWire | RedditApi8/Thing.cs:129-130 | a decoded envelope has a `data` member, an object that binds, and the result's record is its dispatch |
| Binding.VariantFieldFromWire | RedditApi8/Thing.cs:205-224 | in a decoded listing, account, link or "more" record, each stored property holds the bound value of the last member of `data` that fills it, or its default |
| Binding.SubredditFieldFromWire | RedditApi8/Thing.cs:220-221 | the same for a subreddit record, for every property but `Subscribers` |
| Binding.SubscribersOfData | RedditApi8/Data.cs:997-998 | before projection, `Subscribers` is the last `subscribers` number, and null when that member is null or absent |
| Binding.SubscribersFromWire | RedditApi8/SubredditData.cs:101-102 | a decoded subreddit's `Subscribers` is the last `subscribers` number, and 0 when that member is null or absent |
| Binding.ListingChildrenFromWire | RedditApi8/Data.cs:42-43 | a decoded listing's `Children` is null without a `children` member, and otherwise mirrors the last one: one envelope per entry, the i-th decoded from the i-th entry, a null entry as null |
| Binding.MoreCountFromWire | RedditApi8/MoreData.cs:24-25 | a decoded "more" record's `Count` is the last `count` number, and stays null when that member is null or absent |
| Serializer.SetMember | RedditApi8/Data.cs:1116-1179 | the setter run for one member succeeds iff the member binds, and then changes only that property, to its bound value |
| Serializer.DeserializeData | RedditApi8/Data.cs:22-1180 | the setter-by-setter run over a fresh `Data` gives exactly `DecodeData` |
| Serializer.DeserializeThing | RedditApi8/Thing.cs:86-227 | the run of `SetInternalKind` and `SetInternalData` over the members, then `OnDeserialized`, gives exactly `DecodeThing` |
| Samples.AccountReplyDecodes | RedditApi8.Tests/RedditClientTest.cs:113-114 | a `t2` reply with `has_mail`, `name` and `created` decodes to an account holding those three values |
| Samples.TestReplyIsUsername | RedditApi8.Tests/RedditClientTest.cs:113-114 | the test's account reply, trimmed to those three members with integer seconds, decodes to an account named "username", created at its timestamp |
| Client.LoginUri | RedditApi8/RedditClient.cs:92 | definition: `string.Format(ApiPaths.Login, user)` on the production domain (ApiPaths.cs:27); `LoginStep` states that a login posts to it |
| Client.SubredditUri | RedditApi8/RedditClient.cs:178 | definition: `string.Format(ApiPaths.Subreddit, subreddit)` (ApiPaths.cs:47); `PageBase` chooses it for a non-empty subreddit |
| Client.NewSession | RedditApi8/RedditClient.cs:45-52 | a new client is logged out with no errors, no cookie, no requests and only the `User-Agent` header |
| Client.LoginForm | RedditApi8/RedditClient.cs:93-99 | definition: the three form fields, in order; `LoginStep` states that a login posts exactly this form |
| Client.CookieHeader | RedditApi8/RedditClient.cs:125-126 | definition: the `Cookie` header `reddit_session=<cookie>`; `LoginSucceeds` states that a successful login adds exactly it |
| Client.CookieHeaders | RedditApi8/RedditClient.cs:126 | the number of `Cookie` headers is at most the number of headers |
| Client.FirstEntry | RedditApi8/RedditClient.cs:110-112 | definition: the items of the first entry of `errors`, none for an empty array; `LoginListsFirstEntry` states what the login records from them |
| Client.StringPrefix | RedditApi8/RedditClient.cs:112-115 | the strings added before the first non-string item: in order, and the item after them is not a string |
| Client.StringPrefixUnique | RedditApi8/RedditClient.cs:112-115 | those properties determine the error list |
| Client.LoginStep | RedditApi8/RedditClient.cs:90-134 | a login issues exactly one POST to the login path with the three form fields, and keeps the user agent |
| Client.LoginForgetsEarlierErrors | RedditApi8/RedditClient.cs:101 | errors from earlier attempts never survive: the new error list depends on the reply alone |
| Client.LoginFailureKeepsSession | RedditApi8/RedditClient.cs:119-133 | a login that does not return true leaves the logged-in flag, the cookie and the headers unchanged |
| Client.LoginSucceeds | RedditApi8/RedditClient.cs:103-128 | a login returns true iff the status is a success, the first errors entry is absent or empty, and the cookie is present; the session is then logged in with that cookie in exactly one new header |
| Client.LoginListsFirstEntry | RedditApi8/RedditClient.cs:109-122 | with string items only, the error list is exactly the first entry, and the login returns false iff that entry is non-empty |
| Client.LoginAddsOneCookieHeader | RedditApi8/RedditClient.cs:125-126 | a successful login adds exactly one `Cookie` header, and any other login adds none |
| Client.WrongPassword | RedditApi8.Tests/RedditClientTest.cs:68-74 | the wrong-password reply gives three errors, returns false and leaves the client logged out |
| Client.ApiGetStep | RedditApi8/RedditClient.cs:209-221 | definition: a GET issues one request; a failed status yields null, and a successful one the deserialized body |
| Client.AsClass | RedditApi8/RedditClient.cs:144 | definition: `as T` yields the record iff it has class `T`, otherwise null |
| Client.MeStep | RedditApi8/RedditClient.cs:140-150 | logged out, null and no request; logged in, one request to the account path, and any record returned is an account |
| Client.MeFailedStatusThrows | RedditApi8/RedditClient.cs:144 | logged in, a failed status makes `GetMeAsync` throw |
| Client.MeReturnsAccount | RedditApi8/RedditClient.cs:144 | logged in, an account envelope yields its record |
| Client.PageBase | RedditApi8/RedditClient.cs:175-179 | definition: the front page for a null or empty subreddit, otherwise the subreddit's path |
| Client.QueryEntry | RedditApi8/RedditClient.cs:187 | definition: one parameter as `key=value&`; `QueryPairsEndsWithAmpersand` states that the query text ends with the `&` of its last entry |
| Client.QueryPairs | RedditApi8/RedditClient.cs:184-188 | definition: each parameter as `key=value&`, in order; the next two rows state its properties |
| Client.QueryPairsConcat | RedditApi8/RedditClient.cs:184-188 | the query lists the parameters in order: concatenated runs give concatenated text |
| Client.QueryPairsEndsWithAmpersand | RedditApi8/RedditClient.cs:187 | a non-empty parameter list's query text ends with `&` |
| Client.PageUri | RedditApi8/RedditClient.cs:175-191 | definition: the base, then `?` and the query when there are parameters; the next three rows state its properties |
| Client.PageUriWithoutParams | RedditApi8/RedditClient.cs:175-182 | no parameters leave the base unchanged; the front page is `http://www.reddit.com/.json` for a null or empty subreddit |
| Client.PageUriWithParams | RedditApi8/RedditClient.cs:182-191 | with parameters, the URI ends with `&` |
| Client.BuildPageUri | RedditApi8/RedditClient.cs:175-191 | the URI assembled with the query loop is `PageUri` |
| Client.LinksOf | RedditApi8/RedditClient.cs:194-201 | one entry per child in order, the record for a link and null otherwise; fails iff some child is null |
| Client.CollectLinks | RedditApi8/RedditClient.cs:195-199 | the links loop computes `LinksOf` |
| Client.Present | RedditApi8/RedditClient.cs:196-199 | definition: the records among the links, in order, without the null entries; the next two rows state its properties |
| Client.PresentConcat | RedditApi8/RedditClient.cs:196-199 | removing the nulls of two runs of links is removing them from their concatenation |
| Client.LinksWithoutNullsAreDataList | RedditApi8/RedditClient.cs:196-199 | without its null entries, a page is `GetDataList<LinkData>` of the same children |
| Client.PageResult | RedditApi8/RedditClient.cs:194-201 | links are returned exactly from a listing envelope whose children are non-null and none of them null, and are `LinksOf` those children |
| Client.OneLinkChild | RedditApi8.Tests/RedditClientTest.cs:133-137 | a listing with one link child yields exactly that one link |
| Client.PageStep | RedditApi8/RedditClient.cs:172-202 | a page issues one GET to `PageUri`; a failed status throws, and a successful one gives `PageResult` of the fetched envelope |
| Client.RedditClient.constructor | RedditApi8/RedditClient.cs:45-52 | the new client's state is `NewSession` of its user agent, by default `non_io_C#_RedditClient` |
| Client.RedditClient.Login | RedditApi8/RedditClient.cs:90-134 | the new state and the result are those of `LoginStep` |
| Client.RedditClient.ApiGet | RedditApi8/RedditClient.cs:209-221 | the new state and the result are those of `ApiGetStep` |
| Client.RedditClient.GetMe | RedditApi8/RedditClient.cs:140-150 | the new state and the result are those of `MeStep` |
| Client.RedditClient.GetPage | RedditApi8/RedditClient.cs:172-202 | the new state and the result are those of `PageStep` |
| Client.RedditClient.GetFrontPage | RedditApi8/RedditClient.cs:159-162 | the new state and the result are those of `PageStep` with no subreddit |

## Left out

- HTTP transport, await and streams. Each call's reply is a parameter, and requests are recorded in a log rather than sent.
- Pacing and rate limiting, `LogoutAsync`, `GetCommentsAsync` and `GetMoreCommentsAsync`: they are not in the modelled source.
- `Thing.Deserialize` is not part of this model. Its result on a GET body is part of the GET reply.
- `MessageData` and `IData` are not part of this model. `MessageData`'s property table is the parameter `message`.
- The JSON text parser is foreign. It is the parameter `parse`, and the login reply arrives already read.
- The `Errors` getter's lazy re-creation: the list is never null in the model.
- `Helper.ToStream`: stream plumbing.
- Floating-point wire timestamps such as `1213716360.0`, and `Convert.ToInt64` rounding of doubles: only integer seconds are modelled. `Samples.TestReplyIsUsername` therefore uses the test's account reply with integer seconds, and only its `has_mail`, `name` and `created` members.
- Clock.FromUnixSeconds: `DateTime`'s range limits and `DateTime.Kind` are not modelled, so no timestamp throws for being out of range.
- Records.Value: `long` is an unbounded integer, so 64-bit overflow in the conversions is not modelled.
- Envelope.BoxedOf: a JSON string for `edited` fails to bind. `Convert.ToInt64` would parse a numeric string.
- Envelope.ParseKind: `Enum.Parse`'s numeric, whitespace and flag forms are not modelled, only the seven names.
- Envelope.DecodeValue: the serializer's binding rule is not shown, so the model states a strict one. It has no number or string coercions.
- Helper.CopyDeclared: the order of `DeclaredProperties` is unspecified. The loop visits the properties in any order, and the result does not depend on it.
- Client.LoginReply: the JSON accessors on the login body are folded into `None` values: the body fails to parse, `errors` is missing or not an array, its first entry is not an array, or an item is not a string. Only `errors[0]` is read, as in the source.
- Client.RedditClient.Login: `Cookie` construction and header validation, which could throw on unusual values, are not modelled.
- Client.RedditClient.constructor: the validation `DefaultRequestHeaders.Add("User-Agent", …)` performs (`RedditClient.cs:48`) is not modelled. .NET's header grammar is foreign code, so every agent string is accepted, including the empty or malformed ones for which the call throws `FormatException`.
- Client.PageUri: parameter values are not URL-escaped, exactly as in the source. A null value is not modelled.
- The `#if TEST` switch: the production domains are used.
