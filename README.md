# Yogaii authentication core and pose-page helpers, modelled in Dafny

This project models two parts of the Yogaii yoga-pose application.

- **The authentication controller of the API.** `Register` refuses a username that is already stored. Otherwise it replaces the submitted plaintext with a BCrypt hash and stores the user. `Login` looks the user up and verifies the password. An unknown user and a wrong password get the same 401 "Invalid credentials." answer. On success it returns a JWT. The token carries the stored user's id (NameIdentifier claim) and username (Name claim). It expires seven days after issue and is signed with HMAC-SHA-256 under the `JwtSettings:Secret` key.
- **Pure helpers of three React pages.**
  - The pose list: the name slug, the 100-character description cut, the palette index, the loading skeletons and the simulated table.
  - The pose detail page: the character-code colour, the name to id/name/URL mapping, the loading state and the details lookup.
  - The home page: the carousel index moved by a timer and by chips, the colour table with its default, and the choice of 3D model.

Modules, one per component:

- `Wrappers` (`wrappers.dfy`): `Option` and `Result`.
- `PasswordHasher` (`password_hasher.dfy`): the stored hash is the salt followed by the digest. The key-derivation function is a parameter (`Kdf`), so every lemma holds for any choice of it.
- `Jwt` (`jwt.dfy`): the claims, the token and the configuration. The MAC is a parameter (`Signer`). It also holds the two reference predicates a verifier of the token would check: `IsSignedWith`, and `IsExpired` as section 4.1.4 of RFC 7519 defines expiry.
- `UserStore` (`user_store.dfy`): the user collection as a sequence of documents in insertion order; a lookup returns the first match. It also holds the mutable `User` request object.
- `AuthenticationController` (`authentication_controller.dfy`): the controller class. Its `Valid()` invariant says usernames are unique and every stored hash is well-formed. `Register` keeps this invariant.
- `PosesList`, `PoseDetail`, `Home` (`poses_list.dfy`, `pose_detail.dfy`, `home.dfy`): the three pages. `Home.Carousel` is a class because the page updates its index step by step.

These inputs of the source become explicit parameters:

- the clock (`now`, whole seconds);
- the random BCrypt salt (`salt`);
- the key-derivation function;
- the HMAC function;
- the configuration value of the secret.

## Model

| member | source | states |
|---|---|---|
| PasswordHasher.HashPassword | Yogaii-semih/yogaiiAPI/Controllers/AuthenticationController.cs:35 | the stored hash is well-formed, embeds the salt it was made with, and the rest of it is the digest of the plaintext under that salt |
| PasswordHasher.Verify | Yogaii-semih/yogaiiAPI/Controllers/AuthenticationController.cs:44 | `BCrypt.Verify`: a malformed stored hash never verifies, and a plaintext verifies only if hashing it with the stored salt gives back the stored hash |
| PasswordHasher.HashThenVerify | Yogaii-semih/yogaiiAPI/Controllers/AuthenticationController.cs:35 | verifying a plaintext against its own hash succeeds for every salt |
| PasswordHasher.VerifyIffRehash | Yogaii-semih/yogaiiAPI/Controllers/AuthenticationController.cs:44 | verification succeeds exactly when the stored hash equals the hash of the plaintext under the stored salt; a malformed stored hash never verifies |
| PasswordHasher.FreshSaltsGiveDistinctHashes | Yogaii-semih/yogaiiAPI/Controllers/AuthenticationController.cs:35 | hashing one password with two different salts gives two different stored hashes, and both verify the password |
| Jwt.LifetimeWindow | Yogaii-semih/yogaiiAPI/Controllers/AuthenticationController.cs:68 | a token expiring `Lifetime` after issue is live exactly before issue + 7 × 86400 seconds, and is expired one second after the seven days |
| Jwt.TamperedClaimsNeedCollision | Yogaii-semih/yogaiiAPI/Controllers/AuthenticationController.cs:58-69 | a token whose claims were changed after signing still checks as signed only if the MAC gives the same value on both claim sets |
| UserStore.Lookup | Yogaii-semih/yogaiiAPI/Controllers/AuthenticationController.cs:29 | a found document is in the store under the requested username; nothing is found exactly when no document has that username |
| UserStore.UserRepository.GetUserByUsername | Yogaii-semih/yogaiiAPI/Controllers/AuthenticationController.cs:29 | a found user is a stored document with the requested username; nothing is found exactly when no stored document has that username |
| UserStore.LookupAppend | Yogaii-semih/yogaiiAPI/Controllers/AuthenticationController.cs:36 | after appending a document, its username finds the new document only if it was absent before; every other username finds what it found before |
| UserStore.LookupFindsEach | Yogaii-semih/yogaiiAPI/Controllers/AuthenticationController.cs:43 | with unique usernames, looking up a document's username returns that document |
| UserStore.AppendFreshKeepsUnique | Yogaii-semih/yogaiiAPI/Controllers/AuthenticationController.cs:29-36 | appending a document whose username is absent keeps usernames unique |
| UserStore.UserRepository.CreateUser | Yogaii-semih/yogaiiAPI/Controllers/AuthenticationController.cs:36 | the collection gains exactly one document, a copy of the user object, at its end |
| AuthenticationController.AuthenticationController.constructor | Yogaii-semih/yogaiiAPI/Controllers/AuthenticationController.cs:20-24 | the controller keeps the repository and settings it is given; over a store with unique usernames and well-formed hashes it starts in its invariant `Valid()` |
| AuthenticationController.GenerateJwtToken | Yogaii-semih/yogaiiAPI/Controllers/AuthenticationController.cs:53-72 | a token is issued exactly when the secret is present and non-empty; its claims are the stored user's id and username; it expires `Lifetime` after `now`, so it is live at issue; it is HS256-signed with the secret. A missing or empty secret gives its own error |
| AuthenticationController.AuthenticationController.Register | Yogaii-semih/yogaiiAPI/Controllers/AuthenticationController.cs:26-38 | a taken username gives 400 "Username already exists." and changes neither the store nor the user. Otherwise it answers 200 "User registered successfully.": the password field becomes the hash of the plaintext, exactly one document is appended, and that plaintext now authenticates. Every other username's lookup is unchanged. Uniqueness and well-formed hashes are preserved |
| AuthenticationController.AuthenticationController.Login | Yogaii-semih/yogaiiAPI/Controllers/AuthenticationController.cs:40-51 | the answer is 401 "Invalid credentials." exactly when the username is unknown or the password does not verify; both causes give the same value. A token is returned only for a verified user; its claims are the stored document's id and username with expiry `now + Lifetime`, and it is signed with the secret. A fault arises only for a verified user when the secret is unusable. Login never changes the store |
| PosesList.SimulatedTableShape | Yogaii-semih/yogaiiClient/src/components/PosesList.tsx:39-75 | the simulated table has five poses with ids 1 to 5 in order, all distinct |
| PosesList.ColorIndex | Yogaii-semih/yogaiiClient/src/components/PosesList.tsx:149-170 | for a non-negative id the palette index is `id mod 5` and a valid index; for a negative id JavaScript's remainder is not positive, so it is not a palette index unless zero |
| PosesList.JsRemainder | Yogaii-semih/yogaiiClient/src/components/PosesList.tsx:149 | JavaScript's `%`: for a non-negative dividend the remainder lies in [0, b), for a negative one in (-b, 0], and it carries the dividend's sign |
| PosesList.ToLower | Yogaii-semih/yogaiiClient/src/components/PosesList.tsx:144 | lower-casing keeps the length and maps each character on its own |
| PosesList.RemoveFirstSpace | Yogaii-semih/yogaiiClient/src/components/PosesList.tsx:144 | `replace(' ', '')` with a string pattern: a string with a space loses exactly one space and nothing else, and a string without one is unchanged |
| PosesList.Slug | Yogaii-semih/yogaiiClient/src/components/PosesList.tsx:144 | `toLowerCase().replace(' ', '')`: a name with a space gets one character shorter, a name without one is only lower-cased, and no slug holds an upper-case ASCII letter |
| PosesList.RemoveFirstSpaceAt | Yogaii-semih/yogaiiClient/src/components/PosesList.tsx:144 | `replace(' ', '')` removes the first space only and keeps every other character, later spaces included |
| PosesList.RemoveFirstSpaceNone | Yogaii-semih/yogaiiClient/src/components/PosesList.tsx:144 | a string without spaces is unchanged by the replacement |
| PosesList.ShortDescription | Yogaii-semih/yogaiiClient/src/components/PosesList.tsx:176-178 | a description of at most 100 characters is shown unchanged; a longer one becomes its first 100 characters plus "..."; the result is at most 103 long |
| PosesList.ShortDescriptionKeepsPrefix | Yogaii-semih/yogaiiClient/src/components/PosesList.tsx:176-178 | the shown text begins with the description's first min(length, 100) characters |
| PosesList.RenderCard | Yogaii-semih/yogaiiClient/src/components/PosesList.tsx:130-194 | the card link and the "Detayları Gör" button lead to the same `/poses/<slug>` route; a card with a non-negative id has a valid palette index; its text is at most 103 long |
| PosesList.Grid | Yogaii-semih/yogaiiClient/src/components/PosesList.tsx:111-195 | while loading, exactly five skeletons with palette indices 0 to 4; otherwise one card per pose in order; with non-negative ids every item's palette index is valid |
| PoseDetail.CodeUnitSum | Yogaii-semih/yogaiiClient/src/components/PoseDetail.tsx:39 | a character in the Basic Multilingual Plane contributes its own code; any other character contributes hi + lo, where hi is a high surrogate, lo a low surrogate, and the pair decodes back to the character as in section 2.2 of RFC 2781 |
| PoseDetail.CharCodeSum | Yogaii-semih/yogaiiClient/src/components/PoseDetail.tsx:39 | the `reduce` starting at 0: an empty name sums to 0, and every character's code-unit contribution is counted in the total |
| PoseDetail.NameSum | Yogaii-semih/yogaiiClient/src/components/PoseDetail.tsx:39 | the optional chaining and the fallback to 0: a missing or empty name gives 0, and a present name gives its code-unit sum |
| PoseDetail.AstralCharSumsSurrogates | Yogaii-semih/yogaiiClient/src/components/PoseDetail.tsx:37-41 | U+1F600 is summed as 0xD83D + 0xDE00 = 112189, so the route `/poses/` followed by that emoji gets colour index 4 |
| PoseDetail.CharCodeSumConcat | Yogaii-semih/yogaiiClient/src/components/PoseDetail.tsx:39 | the UTF-16 code-unit sum of a concatenation is the sum of the two sums |
| PoseDetail.UniqueColorIndex | Yogaii-semih/yogaiiClient/src/components/PoseDetail.tsx:37-41 | the colour index is the UTF-16 code-unit sum of the name modulo 5, always in range; a missing or empty name gives 0 |
| PoseDetail.UniqueColor | Yogaii-semih/yogaiiClient/src/components/PoseDetail.tsx:37-41 | the colour is one of the five palette entries; a missing name gives the first |
| PoseDetail.RotatedNameSameColor | Yogaii-semih/yogaiiClient/src/components/PoseDetail.tsx:39-40 | swapping the two halves of a name keeps its colour |
| PoseDetail.PoseId | Yogaii-semih/yogaiiClient/src/components/PoseDetail.tsx:47 | the `i`-th page key maps to id `i + 1`; every name except downdog, goddess, plank and tree, unknown or missing ones included, maps to 5 |
| PoseDetail.PoseTitle | Yogaii-semih/yogaiiClient/src/components/PoseDetail.tsx:48 | the display name runs parallel to the id, so every name outside the first four gets "Warrior 2" |
| PoseDetail.PoseDescription | Yogaii-semih/yogaiiClient/src/components/PoseDetail.tsx:49-57 | each pose id gets its own description, in the order Down Dog, Goddess, Plank, Tree, Warrior 2; every name outside the first four keys gets the Warrior 2 text |
| PoseDetail.PoseData | Yogaii-semih/yogaiiClient/src/components/PoseDetail.tsx:46-60 | the built record has the mapped id and name, the image URL "/images/poses/" + name + ".jpg" and the model URL "/models/poses/" + name + ".glb", and the description that belongs to the mapped id |
| PoseDetail.ViewAfterEffect | Yogaii-semih/yogaiiClient/src/components/PoseDetail.tsx:43-71 | a pose is built, and loading ends, exactly when the name is present and non-empty; otherwise the page stays loading |
| PoseDetail.DetailsTableShape | Yogaii-semih/yogaiiClient/src/components/PoseDetail.tsx:75-81 | the details table has exactly the five page keys; every entry has two non-empty benefits and non-empty difficulty, duration and caution |
| PoseDetail.LookupPoseDetails | Yogaii-semih/yogaiiClient/src/components/PoseDetail.tsx:73-83 | corrected lookup: an entry is found exactly when the name is present and is a key of the table; it is that key's complete entry |
| PoseDetail.RenderPanel | Yogaii-semih/yogaiiClient/src/components/PoseDetail.tsx:121-164 | the panel is shown exactly for a found entry and never fails |
| PoseDetail.PanelOnlyForKnownPoses | Yogaii-semih/yogaiiClient/src/components/PoseDetail.tsx:73-83 | with the corrected lookup, the panel appears for the five page keys and for no other name |
| PoseDetail.PoseDetailsAsWritten | Yogaii-semih/yogaiiClient/src/components/PoseDetail.tsx:82 | the lookup as written: null without a name, the table entry for the five keys, an inherited member for the names of `Object.prototype`, and undefined for every other name |
| PoseDetail.RenderPanelAsWritten | Yogaii-semih/yogaiiClient/src/components/PoseDetail.tsx:121-146 | the panel as written: it throws exactly for an inherited member, and shows exactly the details of a table entry |
| PoseDetail.ConstructorRouteThrows | Yogaii-semih/yogaiiClient/src/components/PoseDetail.tsx:82 | as written, the name "constructor" finds an inherited member, and rendering its `benefits.map` throws |
| PoseDetail.AsWrittenAgreesOffPrototype | Yogaii-semih/yogaiiClient/src/components/PoseDetail.tsx:82 | outside the names inherited from `Object.prototype`, the written lookup and the corrected one render the same panel |
| PoseDetail.ListSlugIsDetailKey | Yogaii-semih/yogaiiClient/src/components/PosesList.tsx:144 | the slug of the `i`-th pose of the list is the `i`-th detail page key |
| PoseDetail.SlugDownDog | Yogaii-semih/yogaiiClient/src/components/PosesList.tsx:144 | "Down Dog" slugs to "downdog" |
| PoseDetail.SlugGoddess | Yogaii-semih/yogaiiClient/src/components/PosesList.tsx:144 | "Goddess" slugs to "goddess" |
| PoseDetail.SlugPlank | Yogaii-semih/yogaiiClient/src/components/PosesList.tsx:144 | "Plank" slugs to "plank" |
| PoseDetail.SlugTree | Yogaii-semih/yogaiiClient/src/components/PosesList.tsx:144 | "Tree" slugs to "tree" |
| PoseDetail.SlugWarrior2 | Yogaii-semih/yogaiiClient/src/components/PosesList.tsx:144 | "Warrior 2" slugs to "warrior2" |
| PoseDetail.LoadedGridLinksToDetailPages | Yogaii-semih/yogaiiClient/src/components/PosesList.tsx:78-79 | once the effect has stored the simulated table and cleared loading, the grid has one card per detail key, and the `i`-th card and its button both link to `/poses/` + the `i`-th key |
| PoseDetail.DetailPageRebuildsListPose | Yogaii-semih/yogaiiClient/src/components/PoseDetail.tsx:46-60 | the detail page of the `i`-th key has a details entry and rebuilds the list pose's id, name, image URL and model URL |
| Home.ListsAligned | Yogaii-semih/yogaiiClient/src/components/Home.tsx:18-35 | the image list is as long as the pose list (five), and the colour table has exactly the five poses as keys |
| Home.NextIndex | Yogaii-semih/yogaiiClient/src/components/Home.tsx:262 | one tick moves to the next position and wraps from the last position to 0; the result is always in range |
| Home.AfterTicks | Yogaii-semih/yogaiiClient/src/components/Home.tsx:260-264 | repeated interval ticks: zero ticks leave the position alone, and any tick, or a valid start, gives a valid position |
| Home.AfterTicksIsRotation | Yogaii-semih/yogaiiClient/src/components/Home.tsx:262 | after `n` ticks from a valid position the index is `(start + n) mod 5`, so it stays in [0, 5) |
| Home.FullCycle | Yogaii-semih/yogaiiClient/src/components/Home.tsx:262 | five ticks return the carousel to its starting position |
| Home.Chips | Yogaii-semih/yogaiiClient/src/components/Home.tsx:336-356 | there is one chip per pose, captioned with that pose, and the `i`-th chip selects position `i`, which is in range |
| Home.Carousel.constructor | Yogaii-semih/yogaiiClient/src/components/Home.tsx:256 | the carousel starts at position 0 |
| Home.Carousel.Tick | Yogaii-semih/yogaiiClient/src/components/Home.tsx:261-263 | a tick sets the index to the next position and keeps it in range |
| Home.Carousel.ClickChip | Yogaii-semih/yogaiiClient/src/components/Home.tsx:355 | clicking a chip of the row sets the index to that chip's position, which is in range |
| Home.Carousel.Current | Yogaii-semih/yogaiiClient/src/components/Home.tsx:268-269 | the current position names both a pose and an image |
| Home.PoseColor | Yogaii-semih/yogaiiClient/src/components/Home.tsx:230 | a known pose gets its table colour; any other name gets '#FDC9BA' |
| Home.YogaPoseModel | Yogaii-semih/yogaiiClient/src/components/Home.tsx:229-252 | the model is drawn in the pose's colour; the default box is chosen exactly for names outside the five poses |
| Home.ModelsDistinct | Yogaii-semih/yogaiiClient/src/components/Home.tsx:232-250 | two different known poses get different models, each in its own table colour |

## Findings

| source | as written | input that shows it | evidently intended | confidence | as-written member | corrected member |
|---|---|---|---|---|---|---|
| Yogaii-semih/yogaiiClient/src/components/PoseDetail.tsx:82 | `details[poseName]` reads a property of an object literal. That read also finds the members every object inherits from `Object.prototype`. Such a member is truthy but has no `benefits`, so `poseDetails.benefits.map` throws while rendering | the route `/poses/constructor` (likewise `toString`, `__proto__`, ...) | no details panel for any name outside the five keys | not executed; high (standard JavaScript property lookup) | PoseDetail.ConstructorRouteThrows | PoseDetail.PanelOnlyForKnownPoses |

The corrected lookup `PoseDetail.LookupPoseDetails` uses only the table's own keys. `PoseDetail.AsWrittenAgreesOffPrototype` shows that the two lookups differ only on the inherited names.

## Behaviour kept from the code

- The token has no issued-at claim and no explicit subject claim. It carries NameIdentifier = the stored id, Name = the stored username, and an expiry.
- The source contains no token validator. `Program.cs` sets up no bearer authentication. `Jwt.IsSignedWith` and `Jwt.IsExpired` are reference definitions that the issued token is proved to satisfy; they are not a modelled operation.
- The duplicate-username answer and the invalid-credentials answer carry different messages, as in the code.
- Usernames are not checked for being non-empty.
- Registration's check-then-insert is not atomic, and the store does not itself refuse a duplicate.
- A missing or empty secret is not checked at start-up. It fails only when `GenerateJwtToken` runs, during a login whose password verified.

## Left out

- BCrypt internals are left out: salt generation, the algorithm and cost tag of the stored string, the digest function and constant-time comparison. The stored hash is modelled as the 22-character salt followed by the digest of an abstract key-derivation function.
- BCrypt.Net throws on a malformed stored hash. The model treats such a hash as a mismatch instead. Such hashes cannot arise for documents written by `Register`: the `Valid()` invariant keeps every stored hash well-formed.
- PasswordHasher.VerifyIffRehash: the hasher's other promise, that a wrong password fails to verify, is left out. It holds only with overwhelming probability and needs collision resistance, which an abstract function cannot give.
- JWT serialisation (`JwtSecurityTokenHandler.WriteToken`) and the HMAC computation are foreign library code. The signature is an abstract function of the key, the algorithm and the claims, and the token is a value rather than its compact string.
- The secret's UTF-8 encoding is collapsed into the secret string. Only whether the key is empty is kept.
- AuthenticationController.GenerateJwtToken and AuthenticationController.AuthenticationController.Login: the library's minimum key length for HMAC-SHA-256 is not modelled. A non-empty secret that is too short makes the source throw, while the model issues a token.
- `DateTime.Now` becomes the parameter `now` in whole seconds. This drops local-time to UTC conversion and sub-second ticks, which the "exp" claim truncates anyway. Because the source adds seven local days and the claim is written in UTC, a daylight-saving change inside the week moves the real expiry by one hour; the model always gives exactly `now + Lifetime`.
- The MongoDB repository and async/await are left out: the store is an in-memory sequence of documents. Assignment of a fresh `Id` by the database at insert is left out, so the stored id is the one the user object carries.
- Concurrency is left out, including two racing registrations of one username.
- The ASP.NET result objects (`BadRequest`, `Unauthorized`, `Ok`) become the `Response` datatype. An exception while issuing a token becomes `Fault`.
- `Program.cs`, `ApiService.ts`, `Register.tsx`, `Login.tsx`, `App.tsx`, `LiveDetection.tsx` and `YogaPosePrediction.cs` are not part of this model: they hold wiring, HTTP calls, forms, routing, webcam capture and a plain data class.
- `PosesList.ToLower`: only ASCII letters are lower-cased. JavaScript's full Unicode lower-casing is not modelled, and the pose names are ASCII.
- Strings are sequences of Unicode scalar values where JavaScript counts UTF-16 code units. `PoseDetail.CharCodeSum` converts each character into its code units, so the colour of any route name follows JavaScript. The lengths and `substring` calls of `PosesList` are only applied to the constant pose texts. Those texts have no characters outside the Basic Multilingual Plane, so both counts agree there.
- `Program.cs` (lines 22-24) registers `YogaPoseRepository` and `YogaPosePredictionRepository` but not the `UserRepository` that the controller's constructor asks for. Dependency injection as written could not build the controller. The model takes the repository as a constructor argument.
- `Home.PoseColor`: the lookup is modelled over the table's own keys. As in the detail page, `POSE_COLORS["constructor"]` would return an inherited function. `YogaPoseModel` is never rendered by the home page, so no route reaches that case.
- The 3D meshes, MUI styling, image-load fallbacks and the `setInterval` timing itself are rendering and scheduling. A tick is modelled as one call of `Home.Carousel.Tick`.
