# Material argument parser — Dafny model

This project models the material argument of the Bukkit command framework. `MaterialParser` is the leaf parser that turns one command token into a Bukkit `Material`.

- `parse` peeks at the head of the input queue. If the queue is empty, it fails with "no input provided".
- Otherwise it upper-cases the token and looks it up with `Material.valueOf`. On a match it removes that one token and returns the material.
- When the upper-cased token names no material, `parse` fails with a `MaterialParseException`. That exception carries the token as typed, and the queue is left untouched.
- `stringSuggestions` lists every material name lower-cased, in declaration order. It ignores the partial input.

The model is functional:

- The queue is a `seq<string>` whose head is element 0.
- `Parse` returns a `Step`: the result together with the queue as the parser leaves it.
- The command context is a type parameter. It is carried into the errors without being examined.
- The `Material` enumeration is abstract: an `EnumType` holding the constants' names in declaration order. A constant is its ordinal.
- `Material.valueOf` follows Java's enum semantics. An exact name match yields the constant; any other name yields `IllegalArgumentException`.
- `String.toUpperCase` and `String.toLowerCase` are character-wise ASCII case maps.

Files:

- `ascii_case.dfy` (module `AsciiCase`): the ASCII case maps and their algebra.
- `enums.dfy` (module `Enums`): the abstract enumeration and `valueOf`.
- `material_argument.dfy` (module `MaterialArgument`): the parser, the suggestions, the errors, and the properties relating them.

## Model

| member | source | states |
|---|---|---|
| MaterialArgument.Parse | cloud-minecraft/cloud-bukkit/src/main/java/cloud/commandframework/bukkit/parsers/MaterialArgument.java:117-136 | An empty queue fails with no-input and stays empty. Parsing succeeds exactly when the upper-cased head names a material. On success only the head is removed, and the value is the material named by the upper-cased head; with distinct names it is the only such material. Every failure leaves the queue unchanged, and an unknown name fails with the head token as typed. |
| MaterialArgument.StringSuggestions | cloud-minecraft/cloud-bukkit/src/main/java/cloud/commandframework/bukkit/parsers/MaterialArgument.java:139-148 | One entry per material in declaration order. Entry i is material i's name lower-cased, so no entry holds an upper-case letter. |
| MaterialArgument.SuggestionsIgnoreInput | cloud-minecraft/cloud-bukkit/src/main/java/cloud/commandframework/bukkit/parsers/MaterialArgument.java:139-148 | The suggestion list is the same for every context and every partial input. |
| MaterialArgument.SuggestionsDistinct | cloud-minecraft/cloud-bukkit/src/main/java/cloud/commandframework/bukkit/parsers/MaterialArgument.java:143-147 | When the material names are distinct and free of lower-case letters, no two suggestions are equal. |
| MaterialArgument.ParseAnyCase | cloud-minecraft/cloud-bukkit/src/main/java/cloud/commandframework/bukkit/parsers/MaterialArgument.java:130-132 | A head token whose upper-casing is a material's name parses to that material and consumes exactly that token, whatever its letter case. |
| MaterialArgument.ParseCaseInsensitive | cloud-minecraft/cloud-bukkit/src/main/java/cloud/commandframework/bukkit/parsers/MaterialArgument.java:130 | Two head tokens with the same upper-casing either both fail, or both succeed with the same material and the same remaining queue. |
| MaterialArgument.SuggestThenParse | cloud-minecraft/cloud-bukkit/src/main/java/cloud/commandframework/bukkit/parsers/MaterialArgument.java:130-145 | Round trip: for a material whose name has no lower-case letter, parsing a queue headed by that material's suggestion returns the material and removes one token. |
| MaterialArgument.DirtExample | cloud-minecraft/cloud-bukkit/src/main/java/cloud/commandframework/bukkit/parsers/MaterialArgument.java:129-132 | With materials STONE, DIRT and AIR, the queue ["dirt", "extra"] yields DIRT and leaves ["extra"]. |
| MaterialArgument.LavaExample | cloud-minecraft/cloud-bukkit/src/main/java/cloud/commandframework/bukkit/parsers/MaterialArgument.java:133-135 | With the same materials, the queue ["lava"] fails with a material parse error carrying "lava", and the queue stays ["lava"]. |
| MaterialArgument.SuggestionsExample | cloud-minecraft/cloud-bukkit/src/main/java/cloud/commandframework/bukkit/parsers/MaterialArgument.java:143-147 | With the same materials, the suggestions are ["stone", "dirt", "air"] for any partial input. |
| Enums.ValueOf | cloud-minecraft/cloud-bukkit/src/main/java/cloud/commandframework/bukkit/parsers/MaterialArgument.java:130 | `valueOf` yields a constant exactly when the name is one of the enumeration's names. The constant's name is then exactly the given name (case-sensitive), and with distinct names no other constant has it. |
| Enums.IndexOf | cloud-minecraft/cloud-bukkit/src/main/java/cloud/commandframework/bukkit/parsers/MaterialArgument.java:130 | The lookup behind `valueOf`. It finds the first position holding the name, or reports absence exactly when the name is not in the list. |
| Enums.ValueOfName | cloud-minecraft/cloud-bukkit/src/main/java/cloud/commandframework/bukkit/parsers/MaterialArgument.java:130 | With distinct names, `valueOf` of a constant's own name returns that constant. |
| AsciiCase.ToUpperCase | cloud-minecraft/cloud-bukkit/src/main/java/cloud/commandframework/bukkit/parsers/MaterialArgument.java:130 | Upper-casing keeps the length and maps each character on its own, and the result has no lower-case letter. |
| AsciiCase.ToLowerCase | cloud-minecraft/cloud-bukkit/src/main/java/cloud/commandframework/bukkit/parsers/MaterialArgument.java:145 | Lower-casing keeps the length and maps each character on its own, and the result has no upper-case letter. |
| AsciiCase.UpperOfLower | cloud-minecraft/cloud-bukkit/src/main/java/cloud/commandframework/bukkit/parsers/MaterialArgument.java:145 | Upper-casing a lower-cased string gives the same string as upper-casing the original. |
| AsciiCase.UpperFixedIffNoLower | cloud-minecraft/cloud-bukkit/src/main/java/cloud/commandframework/bukkit/parsers/MaterialArgument.java:130 | Upper-casing leaves a string unchanged if and only if the string has no lower-case letter. |
| AsciiCase.UpperIdempotent | cloud-minecraft/cloud-bukkit/src/main/java/cloud/commandframework/bukkit/parsers/MaterialArgument.java:130 | Upper-casing twice is the same as upper-casing once. |
| AsciiCase.UpperUndoesLower | cloud-minecraft/cloud-bukkit/src/main/java/cloud/commandframework/bukkit/parsers/MaterialArgument.java:145 | On a string without lower-case letters, upper-casing undoes lower-casing. |
| AsciiCase.LowerInjectiveOnNoLower | cloud-minecraft/cloud-bukkit/src/main/java/cloud/commandframework/bukkit/parsers/MaterialArgument.java:145 | Two strings without lower-case letters that lower-case to the same string are equal. |

## Left out

- AsciiCase.ToUpperCase: maps only the ASCII letters. Java's `toUpperCase()` also follows the default locale and the non-ASCII Unicode case pairs, some of which change the length, such as 'ß' becoming "SS". This is weaker than the source for non-ASCII tokens.
- AsciiCase.ToLowerCase: maps only the ASCII letters, for the same reason as `ToUpperCase`.
- MaterialArgument.SuggestThenParse: assumes the material's name has no lower-case letter. Bukkit's material names follow the Java convention of upper-case constant names. The round trip is not claimed for a name that breaks that convention.
- The concrete `Material` constant list is not modelled. It is host data that varies with the server version. The model works for any list of names; `Valid` is Java's guarantee that the names are distinct.
- The command context and the sender type are opaque. The context is only carried into the errors.
- The parser-class identity, the caption key and the caption variable attached to each exception are not modelled. They are message-rendering plumbing; the model keeps only the error kind and the offending input.
- `NoInputProvidedException` comes from the framework core, which is not part of this model. Only its kind and context are kept.
- The mutable `Queue` is modelled as a value. `Parse` returns the queue as `parse` leaves it rather than changing it in place.
- The builders, the deprecated `newBuilder` alias, the `of` factory, argument descriptions and suggestion-provider plumbing are not modelled. They are configuration with no parsing behaviour.
- `SingleEntitySelectorArgument` is not modelled. Its parsing, version gating and suggestions live in a selector parser and in the game's native selector grammar, neither of which is part of this model.
- `FloatRangeArgument` is not modelled. It wraps the game's native floating-point range grammar, which is not part of this model.
