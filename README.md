# jsbattle screens: AI-definition cache, challenge win rule, battle lifecycle

A Dafny model of the two controllers in jsbattle's web front end that hold real logic.

- **The challenge screen** (`ChallengeScreen.js`). It turns a challenge's opponent list (`aiDefList`) into engine AI definitions. It memoises the result: if the list equals the last one seen, it returns the very same array and builds nothing. Otherwise it rebuilds the whole array, one definition per entry, in order. When a battle finishes, the screen either records a win and reports the completed challenge, or asks for the battle to be restarted.
- **The battle screen** (`BattleScreen.js`). It moves from `loading` to `battle` when the engine is ready. On each render tick it builds a leaderboard from the engine's tanks: sorted by score, best first, with `rank` equal to the index. From the phase and the renderer quality it decides what to show: the scoreboard, the debug view, the FPS warning, the loading text, the debug highlight and the refresh interval. Finish and error events go to optional callbacks.

Files:

- `engine.dfy` (module `Engine`): the simulation engine, an external collaborator. It holds the tank states and results the screens read and the `Battlefield` instance. That instance is the tank list, the renderer quality and a log of `buildSimulation`/`addTank`/`start` calls. The file also holds the opaque `AiDefinition` values the engine's factory builds.
- `challenge_screen.dfy` (module `ChallengeScreen`): the definition builder (`Configure`, `Template`, `BuildTemplate`), the win rule (`Alive`, `IsWin`), and the `ChallengeScreen` class. The class holds the cache fields `lastAiDefList` and `aiDefListTemplateCache` and `hasWon`. It also holds a log of requested effects (restart, complete challenge, stats notification) and a ghost rebuild counter.
- `battle_screen.dfy` (module `BattleScreen`): the ranking (`Rows`, `SortByScore`, `WithRanks`, `Ranked`), the visibility policy (`Visibility`), and the `BattleScreen` class with its lifecycle methods.
- `wrappers.dfy` (module `Wrappers`): `Option`. A leaderboard row's `rank` is `None` until the rank loop writes it.

Modelling choices:

- Quality is a `real`, so the thresholds 0.05, 0.3 and 0.66 and the refresh formula `200 + 1300 * (1 - q)` are stated exactly.
- Scores are `int` and energies are `real`.
- The cache compares opponent lists by structural equality. The source compares their `JSON.stringify` forms.
- The cache array is a Dafny `array`, so "the same array is returned" is stated as reference equality, and "rebuilt" is stated with `fresh`.
- Redux dispatches and the delegated `restartBattle` call become entries in the `effects` log. Props callbacks become entries in the `notifications` log.

Behaviours of the code worth noting:

- An opponent entry whose `source` is neither `'file'` nor `'code'` is not dropped. It still produces a definition, which stays `Unconfigured`, at its index (`ChallengeScreen.js:81-92`).
- The FPS warning is shown whenever the phase is `battle` and `q < 0.3`. That includes `q <= 0.05`, where the scoreboard and debug view are already replaced by placeholders (`BattleScreen.js:103-114`).
- Equal scores get no particular order. The model sorts with a stable insertion sort, but no contract promises anything about ties.
- Restarts are unbounded. The model adds no restart cap. No contract is stated about the order of equal scores.

## Model

| member | source | states |
|---|---|---|
| `ChallengeScreen.Configure` | packages/jsbattle-webpage/src/containers/ChallengeScreen.js:83-90 | the `switch` on `source`: `'file'` configures `fromFile(name)`, `'code'` configures `fromCode(name, code)`, and any other source leaves the definition unconfigured; a configured definition carries the entry's name, and a code definition its code |
| `ChallengeScreen.Template` | packages/jsbattle-webpage/src/containers/ChallengeScreen.js:81-92 | a rebuild yields exactly one definition per opponent entry: no entry is dropped |
| `ChallengeScreen.TemplateAt` | packages/jsbattle-webpage/src/containers/ChallengeScreen.js:83-91 | dispatch by position: the definition at index k is `FromFile(name)` for source `'file'`, `FromCode(name, code)` for `'code'`, and unconfigured for any other source |
| `ChallengeScreen.TemplateSnoc` | packages/jsbattle-webpage/src/containers/ChallengeScreen.js:91 | pushing the definition of one more entry appends it after those already built |
| `ChallengeScreen.BuildTemplate` | packages/jsbattle-webpage/src/containers/ChallengeScreen.js:79-92 | the `forEach` loop returns exactly the definitions of the whole list, in input order |
| `ChallengeScreen.ChallengeScreen.constructor` | packages/jsbattle-webpage/src/containers/ChallengeScreen.js:28-37 | the screen starts not won, with an empty cache array keyed by the empty list, no effects and no rebuilds |
| `ChallengeScreen.ChallengeScreen.GetAiDefListTemplate` | packages/jsbattle-webpage/src/containers/ChallengeScreen.js:75-95 | the result always holds the definitions of the current list. If the list equals the last one seen, the result is the previous cache array and nothing is rebuilt. Otherwise it is a fresh array, which becomes the cache, and the list becomes the last one seen. Either way the cache stays consistent with the last list |
| `ChallengeScreen.RenderTwice` | packages/jsbattle-webpage/src/containers/ChallengeScreen.js:76-77 | idempotence: two calls with the same list return the same array |
| `ChallengeScreen.RenderChanged` | packages/jsbattle-webpage/src/containers/ChallengeScreen.js:36-37 | on a new screen, a first call with an empty list returns the very array the constructor created (ghost output `initial`), which is empty, and the ghost rebuild count stays 0; a second call with a non-empty list returns a different array holding that list's definitions, and the rebuild count becomes 1 |
| `ChallengeScreen.Alive` | packages/jsbattle-webpage/src/containers/ChallengeScreen.js:63 | the filter keeps at most as many tanks as the input list holds; `AliveEmpty`, `AliveOne` and `AliveSurvivor` give its meaning for the win rule |
| `ChallengeScreen.AliveEmpty` | packages/jsbattle-webpage/src/containers/ChallengeScreen.js:63 | no tank passes the `energy > 0` filter exactly when every tank has energy at most 0 |
| `ChallengeScreen.AliveOne` | packages/jsbattle-webpage/src/containers/ChallengeScreen.js:63 | the filter leaves exactly the one tank x exactly when x is alive at some index and every other tank is dead |
| `ChallengeScreen.LowerChar` | packages/jsbattle-webpage/src/containers/ChallengeScreen.js:64 | `toLowerCase` on one character: an ASCII capital becomes the lower-case letter the same distance from `'a'`, anything else is unchanged, and no capital remains |
| `ChallengeScreen.ToLower` | packages/jsbattle-webpage/src/containers/ChallengeScreen.js:64 | `toLowerCase` on a name: same length, each character lowered by `LowerChar`, and no ASCII capital left |
| `ChallengeScreen.AliveSurvivor` | packages/jsbattle-webpage/src/containers/ChallengeScreen.js:63-64 | the filter leaves exactly one tank exactly when some tank is the only one with energy > 0, and then the filter's result is that tank |
| `ChallengeScreen.IsWin` | packages/jsbattle-webpage/src/containers/ChallengeScreen.js:63-64 | the win test: won exactly when some tank is the only one with energy > 0 and its lower-cased name is `"player"` |
| `ChallengeScreen.WinExamples` | packages/jsbattle-webpage/src/containers/ChallengeScreen.js:62-68 | Player alive with Enemy dead wins; two tanks alive restarts; a dead player restarts |
| `ChallengeScreen.ChallengeScreen.OnChallengeComplete` | packages/jsbattle-webpage/src/containers/ChallengeScreen.js:62-73 | on a win, `hasWon` becomes true and completion (challenge id, then stats with the level) is reported once with no restart. Otherwise only a restart is requested and `hasWon` is unchanged. The cache is untouched |
| `BattleScreen.Row` | app/webpage/sources/components/screen/battle/BattleScreen.js:59-68 | one engine tank becomes a row with the same id, `name = fullName`, debug data, state, score and energy, and no rank yet |
| `BattleScreen.Rows` | app/webpage/sources/components/screen/battle/BattleScreen.js:59-68 | the `map`: one unranked row per engine tank, at the tank's index |
| `BattleScreen.Insert` | app/webpage/sources/components/screen/battle/BattleScreen.js:69-71 | inserting a row adds exactly that row to the multiset of rows |
| `BattleScreen.InsertBelow` | app/webpage/sources/components/screen/battle/BattleScreen.js:69-71 | inserting a row scoring at most b into rows all scoring at most b leaves every row scoring at most b |
| `BattleScreen.InsertSorted` | app/webpage/sources/components/screen/battle/BattleScreen.js:69-71 | inserting into a list sorted by score, descending, keeps it sorted |
| `BattleScreen.SortByScore` | app/webpage/sources/components/screen/battle/BattleScreen.js:69-71 | the sort with comparator `b.score - a.score` returns a permutation of its input with non-increasing scores |
| `BattleScreen.SortExample` | app/webpage/sources/components/screen/battle/BattleScreen.js:69-71 | rows scoring 10, 5, 20 are sorted as 20, 10, 5 |
| `BattleScreen.WithRanks` | app/webpage/sources/components/screen/battle/BattleScreen.js:72-74 | the rank loop: same number of rows, each row's rank is its index, and every other field is unchanged |
| `BattleScreen.AssignRanks` | app/webpage/sources/components/screen/battle/BattleScreen.js:72-74 | the rank loop on the array in place: afterwards the array holds `WithRanks` of its old contents |
| `BattleScreen.BuildLeaderboard` | app/webpage/sources/components/screen/battle/BattleScreen.js:58-74 | the `map`, the sort and the in-place rank loop over an array together yield exactly `Ranked` of the engine's tanks |
| `BattleScreen.AddTankCalls` | app/webpage/sources/components/screen/battle/BattleScreen.js:43-45 | the `addTank` calls for a roster: one per name, at the name's index, each carrying `{name}` |
| `BattleScreen.PermutedRowsUnranked` | app/webpage/sources/components/screen/battle/BattleScreen.js:58-74 | a permutation of the mapped rows has one row per tank, and taking off the ranks the loop wrote gives it back |
| `BattleScreen.Ranked` | app/webpage/sources/components/screen/battle/BattleScreen.js:58-74 | the leaderboard has one row per engine tank. With ranks removed it is a permutation of the field-wise mapped rows. It is sorted by score, non-increasing, and every row's rank equals its index |
| `BattleScreen.RankedRowsComeFromTanks` | app/webpage/sources/components/screen/battle/BattleScreen.js:59-68 | every leaderboard row is some engine tank mapped field by field (`name = fullName`), ranked at its index |
| `BattleScreen.Visibility` | app/webpage/sources/components/screen/battle/BattleScreen.js:88-114 | loading phase: no scoreboard, no debug view, loading text shown. Battle with q <= 0.05: both replaced by performance placeholders. Battle with q > 0.05: both shown. The FPS warning is shown iff battle and q < 0.3. Highlight iff q > 0.66. The battlefield is visible iff battle. For q in [0,1] the refresh time lies between 200 and 1500, with 200 at q = 1 and 1500 at q = 0 |
| `BattleScreen.RefreshIsLinear` | app/webpage/sources/components/screen/battle/BattleScreen.js:91 | the refresh interval falls linearly with the quality, by 1300 ms per unit |
| `BattleScreen.VisibilityExamples` | app/webpage/sources/components/screen/battle/BattleScreen.js:91-114 | q = 0.5 gives 850 ms. At q = 0.05 both views are placeholders and the FPS warning shows. At q = 0.2 the views show with the warning. At q = 0.3 there is no warning. Highlight is off at 0.66 and on at 0.67 |
| `BattleScreen.BattleScreen.constructor` | app/webpage/sources/components/screen/battle/BattleScreen.js:12-23 | the screen starts in `Loading` at quality 1, time left 0, with an empty tank list and nothing forwarded; no leaderboard has been built yet (the ghost refresh record is at call 0, from no tanks, at quality 1) |
| `BattleScreen.BattleScreen.ComponentDidMount` | app/webpage/sources/components/screen/battle/BattleScreen.js:25-39 | on mount the engine receives exactly one `buildSimulation` call |
| `BattleScreen.BattleScreen.UpdateTankList` | app/webpage/sources/components/screen/battle/BattleScreen.js:58-79 | the tank list becomes the leaderboard of the engine's current tanks, and the quality becomes the engine's `actualRendererQuality`. The ghost refresh record notes how many engine calls had been made and the tanks and quality read. Phase and forwarded events are unchanged |
| `BattleScreen.BattleScreen.OnBattleReady` | app/webpage/sources/components/screen/battle/BattleScreen.js:41-50 | the engine receives one `addTank({name})` per roster name in roster order, then `start`. The leaderboard is rebuilt after the last `addTank` and before `start` (the refresh record's call count is the old count plus the roster size). The tank list is the leaderboard of the engine's tanks at that moment, the quality is the engine's quality at that moment, and the phase is `Battle` |
| `BattleScreen.BattleScreen.OnBattleFinish` | app/webpage/sources/components/screen/battle/BattleScreen.js:52-56 | the result is forwarded unchanged when an `onFinish` callback is present and dropped otherwise. Phase, tank list and quality are unchanged |
| `BattleScreen.BattleScreen.ShowError` | app/webpage/sources/components/screen/battle/BattleScreen.js:81-85 | the message is forwarded unchanged when an `onError` callback is present and dropped otherwise. Phase, tank list and quality are unchanged |

## Left out

- Markup is not modelled: JSX, breadcrumbs, the congratulations jumbotron, the `Loading` and "challenge unavailable" branches of the challenge screen's `render`, and the `Row`/`Col`/`InfoBox` layout. It is presentation only.
- Redux wiring is not modelled: `mapStateToProps`, `mapDispatchToProps`, `connect`, the fetches in the challenge screen's `componentDidMount`, and `onCodeChanged`. These are store and remote I/O. The completion and stats dispatches appear only as entries of the `effects` log. The `useRemoteService` flag that `completeChallenge` also receives (`ChallengeScreen.js:71`) is dropped: it comes from the user profile (`registered`, `ChallengeScreen.js:173`) and is passed through to the store action untouched.
- `BootstrapRWD` is not modelled: the `windowSize` state, the breakpoint that decides where the scoreboard is placed, and the listener disposal in `componentWillUnmount`. These are window listeners.
- The engine is not modelled: `JsBattle.createAiDefinition`, physics, AI execution and rendering are foreign code. `Battlefield` only records the calls made on it. The `AddTank` and `Start` contracts leave the engine's tank list and quality open, because how the engine reacts is not visible here.
- `BattleScreen.BattleScreen.ComponentDidMount`: the engine's `buildSimulation` is assumed to leave the tank list and quality as they were; its effect on them is not visible here.
- Guarding against events arriving after unmount is not modelled. The source has no such guard.
- `getChallengeModifier` and `LiveCode` are not part of this model: they are collaborators outside the two modelled controllers. `getChallengeModifier` comes from the challenge service and only feeds the rendered `LiveCode` component, which hosts the code editor and the battle. `restartBattle`'s delegation to `liveCode.current` is foreign, so it becomes a `RestartBattle` effect. `console.log` calls are left out.
- `ChallengeScreen.ChallengeScreen.GetAiDefListTemplate`: the source compares `JSON.stringify` forms and stores a reference to the props list. The model compares by value, so key order and `undefined` fields are not modelled. The engine's factory (`createAiDefinition`, `fromFile`, `fromCode`) is assumed not to throw. If it did, the source would already have set `_lastAiDefList` to the new list (`ChallengeScreen.js:80`) but not yet the cache (`ChallengeScreen.js:93`), so the next render with the same list would return the previous list's definitions; the model has no such half-updated state.
- `ChallengeScreen.ToLower`: this is `toLowerCase` on ASCII letters only. No other character lower-cases to a letter of `"player"`, so the win rule is unaffected.
- `BattleScreen.SortByScore`: the browser's `Array.prototype.sort` is a library routine. It is modelled as a functional insertion sort. The in-place sorting of the array is not modelled, and only sortedness and permutation are promised, not a tie order. The rank loop does work in place on an array, in `UpdateTankList`.
- `BattleScreen.Visibility`: `qualityLevel` is a JavaScript float. The model uses exact reals, so rounding of the refresh time and of the threshold comparisons is not modelled.
- `BattleScreen.BattleScreen`: the props `tankNameList`, `onFinish` and `onError` are `const` fields fixed at construction. The source reads them at call time (`BattleScreen.js:43`, `:53`, `:82`), so props that change during the screen's lifetime are not modelled.
- `BattleScreen.BattleScreen.constructor`: the engine handle is a constructor argument. In the source it is set by the `ref` callback before mount, and `battlefield = null` before that is not modelled.
- The challenge screen state fields `code`, `tab`, `loading` and `debug` are not modelled: the core never reads or writes them.
