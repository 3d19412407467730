# Guess-the-number session and vehicle cost calculator, in Dafny

Two unrelated pages of a small browser application, modelled and proved.

**Guess the number** (`src/pages/Index.tsx`, module `GuessGame`). The page keeps a
secret number in [1, 100], the pending text of the guess input, an attempt counter,
a feedback message, a game-over flag and a best score read from browser storage,
999 standing for "no record". The handlers change that state through setters; the
model is the class `GuessGame.Game` with those fields, whose methods are proved to
move the fields exactly as the pure functions `NewGame`, `Submit` and `Step` on the
value type `Session` do. The properties are proved about those functions: an invalid
guess changes nothing, a valid one is counted once and clears the input, a win ends
the game and lowers the best score only when the count beats it, the best score never
rises, and an invariant holds in every reachable session. Notifications (toasts) are
returned as a `Toast` value. A user action on an element the page does not show
(the input and the check button once the game is over, the new-game button while it
runs) is modelled as doing nothing (`GuessGame.Step`).

**Vehicle comparison** (`src/pages/CompareVehicles.tsx`, module `VehicleCosts`). A pure
function from eight numbers to the yearly and lifetime running cost, total cost of
ownership and CO2 mass of a diesel and an electric car, plus the savings (diesel minus
electric), over exact reals, and the savings tab's heading and unsigned figures.

Two behaviours of the code worth knowing:
- 999 is an ordinary number to the record comparison (`src/pages/Index.tsx:46`), so with
  no record stored a win in 999 or more attempts is not recorded
  (`GuessGame.SentinelBlocksLongWins`).
- `handleGuess` does not test the game-over flag; only the page's rendering and the Enter
  handler keep it from running after a win. `GuessGame.Game.HandleGuess` therefore
  requires a running game, and `GuessGame.Step` models the gating.

## Model

| member | source | states |
|---|---|---|
| `GuessGame.InitialBestScore` | src/pages/Index.tsx:14-16 | the best score at load is the stored value, or 999 when nothing is stored |
| `GuessGame.ShownBest` | src/pages/Index.tsx:100-102 | the record counter shows nothing exactly when the best score is 999, otherwise the best score |
| `GuessGame.NoRecordShownIff` | src/pages/Index.tsx:14-16 | a freshly loaded page shows no record exactly when storage is empty or holds 999 |
| `GuessGame.DrawTarget` | src/pages/Index.tsx:23 | floor(r * 100) + 1 lies in [1, 100] for every r in [0, 1) |
| `GuessGame.DrawTargetIff` | src/pages/Index.tsx:23 | number t is drawn exactly when r lies in [(t-1)/100, t/100), an interval of width 1/100 (uniform draw gives uniform target), both directions |
| `GuessGame.NextBest` | src/pages/Index.tsx:46-52 | the new best score is the minimum of the old one and the winning count, and it differs from the old one exactly when the count is strictly lower |
| `GuessGame.NewGame` | src/pages/Index.tsx:22-29 | a new game has a target in [1, 100] drawn from r, empty input, 0 attempts, the prompt message, not over, and the same best score |
| `GuessGame.Submit` | src/pages/Index.tsx:31-62 | an invalid guess (missing, < 1 or > 100) leaves the whole session unchanged and signals invalid input; a valid one adds exactly 1 attempt, clears the input, keeps the target; equal ends the game naming the target and announces a record exactly when the count beats the best score; lower says "higher", higher says "lower", both keep game-over and best score; the best score never rises and changes exactly when a record naming it is announced |
| `GuessGame.SentinelBlocksLongWins` | src/pages/Index.tsx:46-52 | with no record, a win in 999 or more attempts records nothing and the counter still shows no record |
| `GuessGame.NewGameEstablishesInv` | src/pages/Index.tsx:22-29 | a new game satisfies the session invariant whatever came before |
| `GuessGame.SubmitPreservesInv` | src/pages/Index.tsx:39-61 | a guess in a running game keeps the invariant: target in [1, 100], attempts >= 0, game over exactly when the message congratulates, naming the target, after at least one attempt and with best score <= attempts |
| `GuessGame.Step` | src/pages/Index.tsx:64-68 | once the game is over, every action but the new-game button changes nothing and emits nothing; in a running game Enter and the check button submit the parsed input, typing sets only the input text; other keys change nothing; the new-game button gives `NewGame` after a win and nothing before; an action that emits nothing leaves the best score alone |
| `GuessGame.StepPreservesInv` | src/pages/Index.tsx:112-144 | every user action (typing, keys, check, new game as rendered) keeps the invariant |
| `GuessGame.RunPreservesInv` | src/pages/Index.tsx:18-68 | the invariant holds after any sequence of user actions |
| `GuessGame.RunBestScore` | src/pages/Index.tsx:46-52 | after any actions the best score is at most the initial one and at most every announced winning count, and if it changed, a new-record notification announced its value |
| `GuessGame.WalkThroughTarget50` | src/pages/Index.tsx:31-59 | target 50: guess 30 says "higher" and the game runs on; missing input, 150 and 0 are rejected without change; 50 then wins with a record of 2 |
| `GuessGame.RecordsAcrossSessions` | src/pages/Index.tsx:46-52 | from no record, wins in 7, 10 and 3 attempts leave best scores 7, 7 and 3 |
| `GuessGame.Game.constructor` | src/pages/Index.tsx:9-20 | page load: best score from storage, then the first new game; the invariant holds |
| `GuessGame.Game.StartNewGame` | src/pages/Index.tsx:22-29 | the fields become exactly `NewGame` of the previous fields; the invariant holds |
| `GuessGame.Game.SetGuess` | src/pages/Index.tsx:118 | only the pending input text changes, as `Step` gives for typing in a running game; the invariant is kept |
| `GuessGame.Game.HandleGuess` | src/pages/Index.tsx:31-62 | the fields and the notification are exactly `Submit` of the previous fields and the parsed input; the invariant is kept |
| `GuessGame.Game.HandleKeyPress` | src/pages/Index.tsx:64-68 | Enter in a running game submits, any other key or a finished game changes nothing; the invariant is kept |
| `VehicleCosts.PerYear` | src/pages/CompareVehicles.tsx:30 | fuel or energy per year times 100 equals distance times consumption |
| `VehicleCosts.CalculateCosts` | src/pages/CompareVehicles.tsx:25-65 | yearly cost = distance * consumption * unit price / 100 per vehicle; lifetime cost = yearly cost * years; total = purchase price + lifetime cost; yearly CO2 = fuel * 2.68 or energy * 0.4; total CO2 = yearly CO2 * years; every saving is diesel minus electric, including the CO2 total |
| `VehicleCosts.TotalSavingsSplit` | src/pages/CompareVehicles.tsx:58-62 | total savings = (diesel price - electric price) + yearly savings * years, and CO2 total savings = yearly CO2 savings * years |
| `VehicleCosts.ZeroYears` | src/pages/CompareVehicles.tsx:32-56 | with 0 years every lifetime cost and CO2 figure is 0 and each total cost is the purchase price |
| `VehicleCosts.DefaultScenario` | src/pages/CompareVehicles.tsx:12-23 | the default inputs give yearly costs 3510 and 324, totals 52550 and 46620, savings 3186 a year and 5930 overall, CO2 2090.4 and 864 a year |
| `VehicleCosts.BreakEven` | src/pages/CompareVehicles.tsx:59-60 | when electric is cheaper to run, total savings are positive exactly when the years owned exceed the price gap divided by the yearly saving |
| `VehicleCosts.SavingsGrowWithYears` | src/pages/CompareVehicles.tsx:59-60 | with a positive yearly saving, more years never lower the total saving |
| `VehicleCosts.Headline` | src/pages/CompareVehicles.tsx:313 | the heading is "Electric Saves Money" exactly when total savings are positive, else "Diesel Saves Money" |
| `VehicleCosts.Abs` | src/pages/CompareVehicles.tsx:322-347 | a shown figure is non-negative and is the value or its negation |
| `VehicleCosts.SavingsTab` | src/pages/CompareVehicles.tsx:308-353 | each of the four shown savings figures is the magnitude of the signed saving (non-negative, equal to it or its negation) and the heading is "Electric Saves Money" exactly when total savings are positive and "Diesel Saves Money" otherwise |
| `VehicleCosts.TabHidesAnnualSign` | src/pages/CompareVehicles.tsx:313-323 | the tab keeps no sign for the annual figure: with electric price 20000 and electricity at 2.0 the annual saving is -810 while the heading says electric saves and the annual figure reads 810 |
| `VehicleCosts.SavingsTabKeepsTotal` | src/pages/CompareVehicles.tsx:313-328 | the heading and the unsigned total together give back the signed total saving |

## Left out

- JSX layout, cards, tabs, icons and the router link: presentation only.
- The text of messages and notifications (Russian strings, emoji): `Message` and `Toast` are tags; `Guessed` and the record tags carry the numbers the texts quote.
- `parseInt`: the class takes it as a parameter (`parse`), with None for "not a number"; what it returns for a given text is not modelled.
- `parseFloat` and NaN propagation: the calculator takes its eight inputs as numbers.
- `Math.random`: the draw is a parameter `r` in [0, 1); randomness is not modelled.
- Browser storage: the stored best score is given to the constructor as a number; writing it back on a record is not modelled (the `bestScore` field is that value). A stored text that does not parse (NaN in the page) is not modelled.
- IEEE-754 rounding: all arithmetic is on exact reals and integers, so equalities hold of the model, not of the page's floating-point figures; `toFixed` formatting is not modelled.
- React state semantics: handlers are taken as sequential updates of the fields; re-rendering, closures and batching are not modelled.
