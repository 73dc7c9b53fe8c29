# Environment configuration of the backend service

This project models the environment-configuration loader of a small
Express/MongoDB backend (`backend/config/env.js`). At start-up the loader
builds a five-field record from the process environment:

- `NODE_ENV`, `PORT` and `JWT_EXPIRE` fall back to `"development"`, the
  number `5000` and `"30d"` through JavaScript's `||`;
- `MONGODB_URI` and `JWT_SECRET` are copied through with no default;

and then walks the list `["MONGODB_URI", "JWT_SECRET"]`, throwing
`Environment variable <name> is required` for the first field that is falsy.

The model works on JavaScript values (`JsValues`: `undefined`, strings,
numbers, truthiness and `||`), so the record is built the way the source
builds it, and its contracts restate each field in terms of the environment
map. The process environment is an input `map<string, string>` in which an
absent key reads as `undefined`; the thrown error is an `Err` result.
Consequences of JavaScript semantics that the contracts make explicit:

- an empty string counts as missing, both for the defaults and for the
  required-variable check;
- `PORT` is either the raw, unparsed string or the number `5000`;
- when both required variables are missing, only `MONGODB_URI` is reported.

A required variable set to the empty string fails start-up just as an absent
one does (`!env[envVar]`, `backend/config/env.js:12`).

Files: `wrappers.dfy` (Option, Result), `js_values.dfy` (JavaScript values),
`env_config.dfy` (the loader and its properties).

## Model

| member | source | states |
|---|---|---|
| EnvConfig.BuildEnv | backend/config/env.js:1-7 | `NODE_ENV` is the supplied value when set and non-empty, else `"development"`; `PORT` is the supplied string, unparsed, when set and non-empty, else the number 5000 (so `""` gives 5000); `JWT_EXPIRE` likewise with `"30d"`; `MONGODB_URI` and `JWT_SECRET` are the supplied strings unchanged (even `""`) or `undefined`, with no default |
| EnvConfig.FirstMissing | backend/config/env.js:11-15 | the result is the least index whose field is falsy: that field is falsy and every earlier one truthy; there is no result exactly when every checked field is truthy |
| EnvConfig.Validate | backend/config/env.js:10-16 | validation succeeds iff both required fields are truthy, and then yields the record unchanged; a falsy `MONGODB_URI` is reported first, otherwise a falsy `JWT_SECRET`, each with the exact message `Environment variable <name> is required` |
| EnvConfig.Load | backend/config/env.js:1-17 | loading fails iff `MONGODB_URI` or `JWT_SECRET` is unset or empty; when `MONGODB_URI` is missing the error names it whatever `JWT_SECRET` holds; otherwise a missing `JWT_SECRET` is named; on success the exported record is the built one |
| EnvConfig.OptionalNeverCauseFailure | backend/config/env.js:10-15 | two environments that agree on the required variables both succeed or fail with the same error: `NODE_ENV`, `PORT` and `JWT_EXPIRE` can never cause failure |
| EnvConfig.LoadedRecordShape | backend/config/env.js:1-17 | on success exactly the five own properties hold defined values and any other name reads as `undefined` among own properties; the required fields are non-empty strings equal to the supplied values |
| EnvConfig.ErrorMessageInjective | backend/config/env.js:13 | distinct variable names give distinct error messages, so the message identifies the missing variable |

## Left out

- `backend/server.js`: Express application set-up, middleware registration, the
  `connectDB()` call, `dotenv` loading and the `/metrics` handler are runtime
  and library glue (dates, process uptime and memory, the mongoose connection
  state), not part of this model.
- Rate limiting, compression, security headers and the database connection
  logic live in `middleware/monitoring` and `config/database`, which are not
  part of this model.
- Reading `process.env` itself: the environment is a parameter of `Load`.
- Process termination on the thrown error: the throw is an `Err` result.
- JavaScript numbers are modelled as unbounded integers; only the literal
  5000 ever occurs, so `NaN` and floating point play no part.
- Field models own properties only; names inherited from `Object.prototype`
  (`toString`, `constructor`, `__proto__`) are not modelled. The check at
  line 12 only reads `MONGODB_URI` and `JWT_SECRET`, so this does not affect
  the outcome.
- Platform-specific behaviour of `process.env` (case-insensitive names on
  Windows) is not modelled: names are compared exactly.
