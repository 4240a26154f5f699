# Endpoint registry and auth white list

This project models the API-routing layer of a WeChat mini-program client.
The layer has two parts:

- the `URL` registry, a fixed table from seven symbolic endpoint names to backend path literals;
- `isWhiteList(path?)`, the predicate the request layer uses to decide whether a route may be called without an authentication token.

The predicate's guard is a JavaScript truthiness test. An omitted argument and the empty string `''` are both falsy, so both take the default-permit branch. Any other string is permitted exactly when it equals, character for character, one of the five white-listed paths (`Array.prototype.includes`).

Layout:

- `wrappers.dfy`: `Option`. `None` stands for an omitted (`undefined`) argument.
- `url.dfy`: module `Url`. It holds the `Endpoint` names, `Path`, the `Registry` and `WhiteList` constants, `Includes` (the array's `includes`), `Truthy` (the guard), `IsWhiteList`, and the lemmas about them.

Two facts about the code that the model keeps:

- The empty string is permitted. The guard `path ? … : true` (src/api/_url.ts:20) tests truthiness, and `''` is falsy; `Truthy` and `EmptyIsWhiteListed` state this.
- The white list holds five paths (src/api/_url.ts:17); `WhiteListInRegistry` proves `|WhiteList| == 5`.

The constants `Registry` (the keys of `URL`, src/api/_url.ts:7-15) and `WhiteList` (`WHITE_LIST`, src/api/_url.ts:17) are described by the rows of `RegistryComplete`, `RegistryPathsDistinct` and `WhiteListInRegistry`.

## Model

| member | source | states |
|---|---|---|
| Url.Path | src/api/_url.ts:7-15 | every registry path is a non-empty literal beginning with `/` |
| Url.RegistryComplete | src/api/_url.ts:7-15 | the registry has exactly seven names and lists every endpoint |
| Url.PathInjective | src/api/_url.ts:8-14 | two names with the same path are the same name |
| Url.RegistryPathsDistinct | src/api/_url.ts:8-14 | the seven registry paths are pairwise distinct |
| Url.WhiteListInRegistry | src/api/_url.ts:7-17 | the white list has five entries, all distinct, each the path of a registry name |
| Url.Truthy | src/api/_url.ts:20 | an absent argument and `''` are falsy; every other string is truthy and non-empty |
| Url.Includes | src/api/_url.ts:20 | `includes` is true exactly when the string is an element of the array |
| Url.IsWhiteList | src/api/_url.ts:19-21 | absent and empty arguments are permitted; a non-empty path is permitted iff it is in the white list |
| Url.EndpointWhiteListed | src/api/_url.ts:7-20 | a registry route is permitted iff it is neither `logout` nor `getLoginUser` |
| Url.IsWhiteListByEndpoint | src/api/_url.ts:7-21 | permitted iff the argument is falsy or is the path of one of the five token-free names (both directions) |
| Url.AbsentIsWhiteListed | src/api/_url.ts:20 | an omitted argument is permitted |
| Url.EmptyIsWhiteListed | src/api/_url.ts:20 | the empty string is falsy and is permitted |
| Url.WhiteListedLiterals | src/api/_url.ts:8-20 | each of the five white-listed literals is permitted |
| Url.ProtectedLiterals | src/api/_url.ts:11-20 | `/logout` and `/getLoginUser` are refused |
| Url.ExactMatchOnly | src/api/_url.ts:20 | `/sendSms/extra`, `/login` and `/unknown/path` are refused: matching is whole-string equality |

## Left out

- The request interceptor that calls `isWhiteList` and attaches tokens, and the HTTP client: they are not part of this model.
- `vite.config.ts`: bundler plugin wiring; its only effect is a file rewrite of the app manifest through a helper script that is not part of this model.
- `types/env.d.ts`, `src/types/components.d.ts`, `src/types/wot-design.d.ts`: ambient type declarations with no runtime behaviour.
- `eslint.config.mjs`, `stylelint.config.mjs`: lint configuration passed to external tools.
- Non-string arguments: the TypeScript signature admits only a string or `undefined`, so other JavaScript values (numbers, `null`) are not modelled.
- Url.Path: fixes the seven values of `URL`. In the source `URL` is an exported object that is not frozen, so other code could reassign its fields at run time. `WHITE_LIST` copies the values when the module loads, so such a reassignment would not change `isWhiteList`.
- Url.IsWhiteList: takes a Dafny `string`, a sequence of Unicode scalar values, while JavaScript compares UTF-16 code units. A path holding a lone surrogate cannot be written in the model. The source refuses such a path anyway, because no white-listed path contains one.
