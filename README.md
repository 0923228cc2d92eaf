# laravel-facebook-pixel, modelled in Dafny

This project models the core of the Laravel package `combindma/laravel-facebook-pixel`.

- **`EventLayer`** is a per-request buffer of tracked events. It is a PHP array from event name to
  `['data' => parameters, 'event_id' => id-or-null]`, with `set`, `merge`, `clear` and `toArray`.
- **`FacebookPixel`** is the facade. It holds the configuration (enabled flag, pixel id,
  API token, session key) and four separate layers: primary, custom, flash and inertia.
  It also has the guarded server-side `send` to the Conversions API.

Files:

- `php_arrays.dfy` (module `PhpArrays`) holds PHP values and string-keyed arrays, plus the two
  library operations the layer relies on.
  - Laravel's `Arr::add` writes a key only when it is missing or holds null.
  - PHP's `array_merge` is a shallow union where the right-hand side wins.
- `event_layer.dfy` (module `EventLayers`) holds the `EventLayer` class. Its field `data` is
  reassigned by `Set`, `Merge` and `Clear`. The module also has ApplySets, a reference definition
  for any sequence of `set` calls, with lemmas about it proved by induction.
- `facebook_pixel.dfy` (module `Pixel`) holds the `FacebookPixel` class and three concrete scenarios.
  - `Valid()` says the four layers are distinct objects, so a write to one layer never reaches another.
  - The getters `PixelId`, `Token`, `SessionKey` and `IsEnabled` are plain field reads. The setters' contracts use them.

`send` is modelled as follows:

- The clock reading `time()` is the parameter `now`.
- The SDK's `EventRequest::execute` is the parameter `execute`, a function from the built request
  to a response, a thrown `Exception` or a thrown PHP `Error`.
- The request handed to the SDK is returned as `submitted`, so "no request was made" can be stated.

## A second `set` keeps the first entry

`set` stores its entry through `Arr::add` (src/EventLayer.php:18). That helper writes only when
the name is absent or holds null. So a second `set` (or `track`) for a name already recorded
leaves the first entry in place; it does not overwrite it. Tracking "Purchase" with value 10 and
then 20 keeps the value-10 entry. See `PhpArrays.Add`, `EventLayers.ApplySetsFirstWins` and
`Pixel.TrackTwiceScenario`.

## Model

| member | source | states |
|---|---|---|
| `PhpArrays.Add` | src/EventLayer.php:18 | `Arr::add` with a plain key. The key set gains the key. A missing or null key gets the new value. A key already holding a non-null value leaves the array unchanged. Every other key keeps its value. |
| `PhpArrays.ArrayMerge` | src/EventLayer.php:23 | `array_merge` with string keys. The key set is the union. Keys of the right side map to the right side's values. Every other key keeps its old value. |
| `PhpArrays.IsEmptyString` | src/FacebookPixel.php:123 | PHP `empty()` on a string: true exactly for the empty string and the one-character string "0". |
| `PhpArrays.EmptyStringExamples` | src/FacebookPixel.php:123 | "" and "0" are empty; "00", " " and "0.0" are not. |
| `PhpArrays.AddKeepsFirst` | src/EventLayer.php:18 | A second add under a key that already holds a non-null value changes nothing. The first value stays. |
| `PhpArrays.MergeEmptyIdentity` | src/EventLayer.php:23 | Merging an empty array, on either side, is the identity. |
| `PhpArrays.MergeIdempotent` | src/EventLayer.php:23 | Merging the same data twice equals merging it once. |
| `EventLayers.EntryValue` | src/EventLayer.php:18 | The stored entry `['data' => …, 'event_id' => …]` is never null, and AsEntry decodes it back to the same parameters and id. A missing id is stored as null. |
| `EventLayers.AsEntryInverse` | src/EventLayer.php:18 | Any value of the stored entry shape is exactly the encoding of what it decodes to. |
| `EventLayers.EventLayer.constructor` | src/EventLayer.php:11-14 | The new layer's entries are the supplied data. The default argument is the empty array, so a default layer is empty. |
| `EventLayers.EventLayer.Set` | src/EventLayer.php:16-19 | The new entries are `Add` of the old entries, the name and the entry. The parameters default to empty and the id defaults to null. |
| `EventLayers.EventLayer.Merge` | src/EventLayer.php:21-24 | The new entries are `ArrayMerge` of the old entries and the new data. |
| `EventLayers.EventLayer.Clear` | src/EventLayer.php:26-29 | The entries are empty afterwards, whatever they were before. |
| `EventLayers.EventLayer.ToArray` | src/EventLayer.php:31-34 | Returns the current entries as a value. It is a function, so it changes no state. |
| `EventLayers.ApplySetsKeys` | src/EventLayer.php:16-19 | After any sequence of sets, the keys are the old keys plus the names the calls mention. No key is ever removed. |
| `EventLayers.ApplySetsUntouched` | src/EventLayer.php:16-19 | A name no call mentions stays absent, or keeps its old value. |
| `EventLayers.ApplySetsKeepsPresent` | src/EventLayer.php:16-19 | A name already holding a non-null value has that value after any sequence of sets. |
| `EventLayers.ApplySetsFirstWins` | src/EventLayer.php:16-19 | Take a name that starts absent or null. Its entry after a sequence of sets is the one from the first call for that name. |
| `Pixel.FacebookPixel.constructor` | src/FacebookPixel.php:36-46 | Sets the configuration from the parameters. Creates four fresh, distinct and empty layers. |
| `Pixel.FacebookPixel.PixelId` | src/FacebookPixel.php:48-51 | Returns the configured pixel id. |
| `Pixel.FacebookPixel.SessionKey` | src/FacebookPixel.php:53-56 | Returns the configured session key. |
| `Pixel.FacebookPixel.Token` | src/FacebookPixel.php:58-61 | Returns the configured API token. |
| `Pixel.FacebookPixel.IsEnabled` | src/FacebookPixel.php:63-66 | Returns the enabled flag. |
| `Pixel.FacebookPixel.Enable` | src/FacebookPixel.php:68-71 | `IsEnabled()` becomes true. The other settings and the layers are unchanged. |
| `Pixel.FacebookPixel.Disable` | src/FacebookPixel.php:73-76 | `IsEnabled()` becomes false. The other settings and the layers are unchanged. |
| `Pixel.FacebookPixel.SetPixelId` | src/FacebookPixel.php:78-81 | `PixelId()` returns the id. The token, session key, enabled flag and layers are unchanged. |
| `Pixel.FacebookPixel.Track` | src/FacebookPixel.php:86-89 | The primary layer gets `Add` of the entry with a null id. The facade's fields and the other three layers are unchanged. |
| `Pixel.FacebookPixel.TrackCustom` | src/FacebookPixel.php:94-97 | The same, for the custom layer only. |
| `Pixel.FacebookPixel.FlashEvent` | src/FacebookPixel.php:102-105 | The same, for the flash layer only. The primary layer is unchanged, so flashed entries never appear there. |
| `Pixel.FacebookPixel.TrackInertia` | src/FacebookPixel.php:110-113 | The same, for the inertia layer only. |
| `Pixel.FacebookPixel.Send` | src/FacebookPixel.php:118-150 | See below. |
| `Pixel.FacebookPixel.Merge` | src/FacebookPixel.php:155-158 | The primary layer becomes the `ArrayMerge` of its entries and the session data. Nothing else changes. |
| `Pixel.FacebookPixel.GetEventLayer` | src/FacebookPixel.php:163-166 | Returns the primary layer object itself, not a copy. |
| `Pixel.FacebookPixel.GetCustomEventLayer` | src/FacebookPixel.php:171-174 | Returns the custom layer object itself. |
| `Pixel.FacebookPixel.GetInertiaEventLayer` | src/FacebookPixel.php:179-182 | Returns the inertia layer object itself. |
| `Pixel.FacebookPixel.GetFlashedEvent` | src/FacebookPixel.php:187-190 | Equals the flash layer's `ToArray()`. |
| `Pixel.FacebookPixel.Clear` | src/FacebookPixel.php:206-209 | The primary layer becomes a fresh empty object. The custom, flash and inertia layers and the configuration are untouched. The replaced layer object keeps its entries. |
| `Pixel.TrackTwiceScenario` | src/FacebookPixel.php:86-89 | Tracking "Purchase" with value 10 and then 20 leaves only the value-10 entry, with a null id. |
| `Pixel.FlashScenario` | src/FacebookPixel.php:102-105 | A flashed "ViewContent" is in `GetFlashedEvent()` and the primary layer stays empty. |
| `Pixel.ToArraySnapshotScenario` | src/EventLayer.php:31-34 | All four hold along one sequence of calls. `toArray` is unaffected by a later set. A set through the returned live layer is seen by the facade. That layer keeps its entry after the facade's `clear`. |

`Pixel.FacebookPixel.Send` states:

- Disabled: it returns null and submits nothing, whatever the token.
- Enabled with PHP-empty token (`""` or `"0"`): it throws the configuration error and submits nothing.
- Otherwise it submits exactly one request to the configured pixel id with the token. The request holds one event: the name, `now`, the source URL, the user data, the custom data and action source `"website"`.
  - A response is passed through unchanged.
  - An `Exception` thrown by the SDK is caught and becomes a null result.
  - A PHP `Error` thrown by the SDK (a `TypeError`, say) is not an `Exception`, so it is not caught and leaves `send`.
- In the model, `send` throws if and only if it is enabled and either the token is empty or the SDK threw a PHP `Error`.

## Left out

- `EventLayers.EventLayer.Set`: only names without a dot are modelled (`requires IsPlainKey`). `Arr::add` reads a dotted name as a path into nested arrays.
- `Pixel.FacebookPixel.Track`, `Pixel.FacebookPixel.TrackCustom`, `Pixel.FacebookPixel.FlashEvent`, `Pixel.FacebookPixel.TrackInertia`: have the same dot-free restriction, since they call `Set`.
- `Pixel.FacebookPixel.SetPixelId`: takes a string only. PHP accepts `int|string` and turns an int into its decimal string when it stores it in the string-typed field.
- `PhpArrays.ArrayMerge`: keys are strings only. PHP turns numeric-string keys into integers, and `array_merge` renumbers integer keys.
- Key order of PHP arrays is not modelled. Maps are unordered.
- PHP floats and objects are not among the modelled values.
- `Pixel.FacebookPixel.Send`: several parts are not modelled.
  - The SDK work (`Api::init`, `CurlLogger`, the `Event` builder, `EventRequest::execute`) becomes the built request plus the `execute` parameter.
  - `time()` becomes the `now` parameter.
  - `Log::error` when a submission fails is not modelled.
  - The SDK's failures are reduced to a message: the exception object and its class hierarchy beyond `Exception` versus `Error` are not modelled.
- `getEmail` depends on Laravel's `Auth` facade and is not part of this model.
- The constructor's `config(...)` reads become constructor parameters.
- The `Macroable` trait is framework runtime extension and is not modelled.
- tests/TestCase.php only sets configuration values for a test harness and is not modelled.
