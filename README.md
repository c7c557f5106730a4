# d100 check resolution and roll announcements

This project is a Dafny model of the dice-roll core of a small tabletop
role-playing site, the module `discord_blueprint.py`. The site's pages post
a check to one of four endpoints: a characteristic, a skill, sanity or luck.
The endpoint draws a d100 roll and resolves it against the character's value
under the Call of Cthulhu 7th-edition rules. It then announces the result in
a chat channel as a five-line markdown message.

Modules:

- `RollOutcome` (`roll_outcome.dfy`): the `Outcome` datatype and `Evaluate`.
  `Evaluate` classifies a roll in [1, 100] against a non-negative target. Lemmas
  characterise each outcome exactly, pin down the boundary cases and prove
  monotonicity in the roll and in the target.
- `Text` (`text.dfy`): decimal rendering of non-negative integers, with a parser
  that inverts it. Also ASCII upper-casing, and the camel-case split the skill
  endpoint applies to a skill identifier. That split has an inverse,
  `RemoveInsertedSpaces`, and its length, first-character, fixed-point and
  spacing properties are proved.
- `RollMessage` (`roll_message.dfy`): the outcome labels, the announcement
  template and a reader that recovers the outcome from an announcement's last
  line. Lemmas give the exact offset of every field. They also show that the
  message has exactly five lines whenever the user name and the roll type
  contain no line break.
- `RollRoutes` (`roll_routes.dfy`): the roll-type labels the four endpoints
  build, and each endpoint modelled as the announcement it sends.

The acting user's name is a parameter, and so is the die roll. The roll is
required to lie in [1, 100], the range of `random.randint(1, 100)`. Targets
come from the router's unsigned integer converter and are required to be
`>= 0`. For such operands Python's floor division `//` coincides with Dafny's
`/`.

The template appends " Roll" to every roll type. The sanity endpoint therefore
announces `**Sanity Roll Roll**` and the luck endpoint `**Luck Roll Roll**`.
The model keeps this, and `RollRoutes.SanityAndLuckHeaders` states it.

A target of 0 never takes the success branch, so a roll of 1 against it is an
ordinary Failure. The model keeps this boundary exactly as the code has it.

## Model

| member | source | states |
|---|---|---|
| `RollOutcome.Evaluate` | discord_blueprint.py:31-56 | the outcome is a success (Critical, Extreme, Hard or Regular) exactly when roll <= target; a Fumble needs a roll of at least 96 |
| `RollOutcome.CriticalExactly` | discord_blueprint.py:33-37 | Critical Success holds exactly when roll == 1 and target >= 1 |
| `RollOutcome.ZeroTargetNeverSucceeds` | discord_blueprint.py:33-56 | with target 0 no roll succeeds, and a roll of 1 yields Failure, not Critical Success |
| `RollOutcome.ExtremeExactly` | discord_blueprint.py:39-41 | Extreme Success holds exactly when 2 <= roll <= target // 5 |
| `RollOutcome.HardExactly` | discord_blueprint.py:42-45 | Hard Success holds exactly when roll != 1 and target // 5 < roll <= target // 2 |
| `RollOutcome.RegularExactly` | discord_blueprint.py:46-48 | Regular Success holds exactly when roll != 1 and target // 2 < roll <= target |
| `RollOutcome.FumbleExactly` | discord_blueprint.py:50-53 | Fumble holds exactly when roll > target and either target < 50 with roll >= 96, or target >= 50 with roll == 100 |
| `RollOutcome.FailureExactly` | discord_blueprint.py:54-56 | Failure holds exactly when roll > target and the fumble condition is false |
| `RollOutcome.NoFumbleFromHundred` | discord_blueprint.py:33-53 | a target of 100 or more always succeeds, so it can never fumble |
| `RollOutcome.Monotone` | discord_blueprint.py:33-56 | for a fixed target a lower roll never gives a worse outcome (Critical > Extreme > Hard > Regular > Failure > Fumble) |
| `RollOutcome.MonotoneInTarget` | discord_blueprint.py:33-56 | for a fixed roll a higher target never gives a worse outcome |
| `RollOutcome.Scenarios` | discord_blueprint.py:31-56 | concrete cases: (1,40) Critical, (8,40) Extreme, (9,40) Hard, (35,40) Regular, (98,40) Fumble, (60,40) Failure, (96,49) Fumble, (95,49) Failure, (100,50) Fumble, (99,50) Failure |
| `RollMessage.Label` | discord_blueprint.py:35-56 | every outcome label is non-empty and has no line break |
| `RollMessage.LabelInjective` | discord_blueprint.py:35-56 | the six labels are pairwise distinct |
| `RollMessage.FormatRollMessage` | discord_blueprint.py:20-66 | reading the last line of the announcement gives back exactly the outcome that Evaluate assigns to the roll |
| `RollMessage.MessageFields` | discord_blueprint.py:59-65 | the user name, roll type, roll digits, target digits and outcome label each occur verbatim in the announcement, at fixed offsets |
| `RollMessage.MessageHasFiveLines` | discord_blueprint.py:59-65 | when the user name and roll type contain no line break, the announcement contains exactly four line breaks (five lines) |
| `Text.Decimal` | discord_blueprint.py:62-63 | the rendering of a number is a non-empty string of decimal digits, with a leading '0' exactly when the number is 0 |
| `Text.ParseDecimalOfDecimal` | discord_blueprint.py:62-63 | parsing the rendered digits gives the number back |
| `Text.DecimalInjective` | discord_blueprint.py:62-63 | distinct rolls or targets are rendered differently |
| `Text.ToUpper` | discord_blueprint.py:91 | upper-casing keeps the length, maps every ASCII lower-case letter to its capital and leaves every other character unchanged |
| `Text.ToUpperHasNoLower` | discord_blueprint.py:91 | an upper-cased name contains no ASCII lower-case letter |
| `Text.ToUpperIdempotent` | discord_blueprint.py:91 | upper-casing twice is the same as upper-casing once |
| `Text.SplitCamelCase` | discord_blueprint.py:102 | the display name is one character longer than the identifier for each capital after index 0, and it keeps the identifier's first character |
| `Text.SplitCamelCaseRoundTrip` | discord_blueprint.py:102 | deleting the inserted spaces, meaning each space directly before a capital, gives back the identifier |
| `Text.SplitCamelCaseInjective` | discord_blueprint.py:102 | distinct skill identifiers get distinct display names |
| `Text.SplitCamelCaseUnchanged` | discord_blueprint.py:102 | an identifier with no capital after index 0 is shown unchanged |
| `Text.SplitCamelCaseSpaced` | discord_blueprint.py:102 | in the display name, every capital after index 0 is preceded by a space |
| `Text.SplitCamelCaseExample` | discord_blueprint.py:101-102 | "ArtCraft" is shown as "Art Craft" |
| `RollRoutes.StatRollType` | discord_blueprint.py:91 | the stat label is the upper-cased stat name followed by " Check"; letters are capitalised and nothing else changes |
| `RollRoutes.SkillRollType` | discord_blueprint.py:102-104 | the skill label is the camel-case split of the identifier followed by " Skill"; removing the inserted spaces from the part before " Skill" gives back the identifier, and that part is one character longer per capital after index 0 |
| `RollRoutes.StatRoll` | discord_blueprint.py:82-93 | the stat announcement reports the outcome of the roll against the stat value and carries the stat label on its second line |
| `RollRoutes.SkillRoll` | discord_blueprint.py:96-108 | the skill announcement reports the outcome of the roll against the skill value and carries the skill label on its second line |
| `RollRoutes.SanityRoll` | discord_blueprint.py:111-122 | the sanity announcement reports the outcome of the roll against the sanity value and carries "Sanity Roll" on its second line |
| `RollRoutes.LuckRoll` | discord_blueprint.py:125-134 | the luck announcement reports the outcome of the roll against the luck value and carries "Luck Roll" on its second line |
| `RollRoutes.SanityAndLuckHeaders` | discord_blueprint.py:111-134 | the second line of a sanity or luck announcement, which starts right after the first line and its break, reads "**Sanity Roll Roll**" or "**Luck Roll Roll**" |
| `RollRoutes.StatRollTypeExample` | discord_blueprint.py:91 | the stat name "dex" gives the label "DEX Check" |

## Left out

- `send_discord_message` (discord_blueprint.py:68-78) and the chat bot in `discord_bot.py`: they submit a message to another thread's event loop, deliver it over the network and swallow any error. A handler is modelled as the message it hands over.
- `roll_100` (discord_blueprint.py:16-18): randomness. The roll is a parameter, and only its range [1, 100] is kept, as a precondition.
- Routing, the empty response bodies and the `print` logging of the four handlers (discord_blueprint.py:82-134). Only the labels and announcements they build are modelled.
- `current_user.username` (discord_blueprint.py:60): the current user of the web session. It is replaced by a `user` parameter, and the model formats a message for any name.
- The anonymous-request error path: none of the four handlers requires a login (discord_blueprint.py:82-134). For an anonymous request the current user has no `username`, so line 60 raises an error and no announcement is built or sent. The model has no anonymous user and does not capture this failure.
- Text.ToUpper: models `str.upper` on ASCII letters only. Python also upper-cases other Unicode letters, and some of them change length (for example 'ß' becomes "SS").
- `app.py` (application setup, accounts, the game-server player count) and `forms.py` (form validators backed by a library and a database) are not part of this model.
