# WordPress Plugin Boilerplate: a Dafny model of its logic

The plugin skeleton registers a settings page, a REST endpoint, a PSR-4 class
autoloader and activation logic for single sites and multisite networks. Most of
the code hands callbacks to WordPress or prints HTML. This project models the
parts that make decisions of their own, and proves what they promise:

- **Settings** (`admin_settings.dfy`, module `Admin`, class `AdminSettings`).
  Two sanitize callbacks share one loop: keep every key whose value passes
  `isset()` and store `strip_tags(stripslashes(v))` for it. The model also has
  the defaults of the two option groups, the initialisation that stores those
  defaults only when the option is absent, and the choice of tab and settings
  group from the `tab` query parameter. Both callbacks apply one rule to every
  key. They do not turn checkboxes into booleans, normalise slugs or fill in
  absent fields, and the model adds none of that.
  `strip_tags` and `stripslashes` are function parameters. Most properties hold
  whatever those PHP functions do. The exceptions:
  - `InputDefaultsAreFixedPoint` and `PlainSurvives` assume that both filters
    leave a string with no `\`, `<` or NUL unchanged. PHP's filters meet this.
    For `stripslashes` it is proved of `Php.StripSlashes`, a model of PHP's
    function. For `strip_tags` it is assumed.
  - The sanitizer is idempotent exactly when the composed filters leave every
    first-pass value unchanged (`SanitizeIdempotentIff`). PHP's `stripslashes`
    does not meet this: `\\` becomes `\`, and `\` becomes the empty string.
    So each save strips another level of backslashes
    (`PhpSanitizerIsNotIdempotent`).
- **Autoloader** (`autoloader.dfy`, module `Autoloader`). This is the closure
  given to `spl_autoload_register`. It runs the `strncmp` prefix test against
  `PluginName\` and strips the prefix. It then turns `\` into `/` and builds
  `<dir>/<relative>.php`. Finally it either requires the file, exits when the
  file is missing, or declines a foreign class. `ClassForFile` is its inverse.
  This loader follows section 2, item 3 of PSR-4 (Autoloader) for the mapping,
  but exits when a file is missing where PSR-4 asks autoloaders not to raise
  errors. File existence and `esc_html` are parameters.
- **Activation** (`activator.dfy`, module `Activation`, class `Activator`, over
  the host state in `wordpress.dfy`). The steps are: the permission check, which
  deactivates and dies on failure; tagging the configuration with
  `network-wide`; storing it only when absent; visiting every site between
  `switch_to_blog` and `restore_current_blog`; and the dependency check over
  `REQUIRED_PLUGINS`, which is empty.
- **REST API** (`api.dfy`, module `RestApi`, class `Api`). It covers the
  namespace `<slug>/v1`, the 401/403 choice, the permission decision, argument
  validation (PHP `empty()` treats `"0"` as empty), the declared argument and
  the constant answer.

`php.dfy` holds PHP scalars, arrays as maps, the `(string)` cast and `empty()`.
`wordpress.dfy` holds class `Host`: one option store per blog, the current
blog, the stack that `switch_to_blog` pushes and `restore_current_blog` pops, a
ghost log of switches, capabilities and active plugins. It also holds
`InsertIfAbsent`, the effect of "`get_option` is false, so `update_option`".

## Model

| member | source | states |
|---|---|---|
| `Admin.SanitizeEach` | plugin-name/Admin/AdminSettings.php:190-204 | The output's keys are exactly the input keys whose value is set, so no key is added. Each kept value is `strip_tags(stripslashes(v))`, with slashes stripped first. The loop invariants prove this. |
| `Admin.AdminSettings.SanitizeGeneralOptionsCallback` | plugin-name/Admin/AdminSettings.php:187-205 | A submission that is not an array, such as the null WordPress passes when nothing is posted, gives the empty array. For an array, the keys are the set input keys, the values are `strip_tags(stripslashes(v))`, and the result equals `Sanitized(input)`. |
| `Admin.AdminSettings.SanitizeInputExamplesOptionsCallback` | plugin-name/Admin/AdminSettings.php:370-388 | Same contract as the general callback, so both compute the same function of their input. |
| `Admin.SanitizeIdempotentIff` | plugin-name/Admin/AdminSettings.php:196-200 | Sanitizing the sanitized array changes nothing iff, for every set key, applying `strip_tags(stripslashes(·))` again leaves the first-pass value unchanged. |
| `Admin.SecondPassStripsAgain` | plugin-name/Admin/AdminSettings.php:196-200 | Suppose a first-pass value is a lone `\`, `stripslashes` drops it and `strip_tags` keeps `""`. Then the second pass stores `""` and the two passes differ. |
| `Admin.PhpSanitizerIsNotIdempotent` | plugin-name/Admin/AdminSettings.php:199 | Assume PHP's `stripslashes` and any `strip_tags` that keeps `\` and `""`. A submitted `\\` is stored as `\` and, saved again, as `""`. |
| `Php.StripSlashesDropsOneLevel` | plugin-name/Admin/AdminSettings.php:199 | PHP's `stripslashes` maps `\\` to `\` and `\` to `""`, so it is not idempotent. |
| `Php.DigitsRoundTrip` | plugin-name/Admin/AdminSettings.php:199 | The decimal digits that `(string)` writes for a number read back as that number. |
| `Admin.UncheckedCheckboxIsDropped` | plugin-name/Admin/AdminSettings.php:193-201 | A checkbox key absent from the submission is absent from the result. No `false` is filled in. |
| `Admin.AdminSettings.constructor` | plugin-name/Admin/AdminSettings.php:34-37 | The settings object keeps the plugin slug it is given. |
| `Php.StripSlashes` | plugin-name/Admin/AdminSettings.php:199 | PHP's `stripslashes`: the result is never longer than the input, and a string without `\` comes back unchanged. By its definition `\0` becomes NUL, `\x` becomes `x`, and a final lone `\` is dropped. |
| `Admin.AdminSettings.DefaultGeneralOptions` | plugin-name/Admin/AdminSettings.php:142-147 | The general defaults are exactly `{debug: false}`. |
| `Admin.AdminSettings.DefaultInputOptions` | plugin-name/Admin/AdminSettings.php:283-292 | The input-example defaults are exactly the five listed keys with their string values. |
| `Admin.AdminSettings.GeneralDefaultsLoseBoolean` | plugin-name/Admin/AdminSettings.php:144-146 | If the general defaults were passed to the sanitizer, the result would be `{debug: strip_tags(stripslashes(""))}`: the boolean `false` would become a string. |
| `Admin.AdminSettings.InputDefaultsAreFixedPoint` | plugin-name/Admin/AdminSettings.php:285-291 | If the two filters leave strings with no `\`, `<` or NUL unchanged, the input-example defaults pass the sanitizer unchanged. |
| `Admin.AdminSettings.InitializeGeneralOptions` | plugin-name/Admin/AdminSettings.php:108-111 | The current blog's store becomes `InsertIfAbsent(store, plugin_name_general_options, defaults)`. An existing value stays, and other blogs and options are untouched. |
| `Admin.AdminSettings.InitializeInputExamples` | plugin-name/Admin/AdminSettings.php:219-222 | The same, for `plugin_name_input_examples` and its defaults. |
| `Admin.AdminSettings.SettingsPage` | plugin-name/Admin/AdminSettings.php:70-88 | The active tab is the `tab` parameter, or `general_options` when it is absent. Each nav tab is active iff its id equals the active tab. The general group renders iff the active tab is `general_options`, and any other value renders input examples. At most one nav tab is active. |
| `Admin.AdminSettings.UnknownTabHasNoActiveNavTab` | plugin-name/Admin/AdminSettings.php:73-88 | A tab naming neither tab renders the input-examples group while no nav tab is marked active. |
| `WordPress.InsertIfAbsent` | plugin-name/Includes/Activator.php:168-171 | The option exists afterwards. An existing value is never overwritten and no other option changes. |
| `WordPress.InsertIfAbsentIdempotent` | plugin-name/Includes/Activator.php:165-172 | A second insert-if-absent, with any value, equals the first. |
| `Autoloader.PrefixTest` | plugin-name/Autoloader.php:33-37 | `strncmp(prefix, class, 11) == 0` holds iff the class name starts with `PluginName\`. |
| `Autoloader.RelativeClass` | plugin-name/Autoloader.php:40 | `PluginName\` followed by the relative name is the class name. |
| `Autoloader.StrReplace` | plugin-name/Autoloader.php:45 | Same length. Every occurrence of the search character becomes the replacement and every other character stays, so the search character no longer occurs. |
| `Autoloader.ClassFile` | plugin-name/Autoloader.php:30-45 | The path starts with `<dir>/` and ends with `.php`. Its middle has no `\` and maps the relative name character for character. |
| `Autoloader.Autoload` | plugin-name/Autoloader.php:24-53 | It declines iff the prefix is missing. Otherwise it requires `ClassFile(...)` iff the file exists, and else exits with `esc_html` of the message naming the class. |
| `Autoloader.StrReplaceRoundTrip` | plugin-name/Autoloader.php:45 | Replacing `a` by `b` in a string without `b`, then `b` by `a`, gives the string back. So `/` to `\` undoes the path mapping for names without `/`, and the reverse holds for segments without `\`. |
| `Autoloader.ClassFileInvertible` | plugin-name/Autoloader.php:40-45 | For a relative name without `/`, `ClassForFile` of its file gives back the class name. |
| `Autoloader.ClassForFileInvertible` | plugin-name/Autoloader.php:40-45 | Every `<dir>/<path>.php` with no `\` in `<path>` is the file loaded for the class `ClassForFile` names. |
| `Autoloader.SlashAndBackslashShareFile` | plugin-name/Autoloader.php:45 | `Admin/Settings` and `Admin\Settings` map to the same file, which is why the inverse needs "no `/`". |
| `Activation.Tagged` | plugin-name/Includes/Activator.php:49 | The stored configuration has `network-wide` equal to the argument, and every other entry is unchanged. |
| `Activation.Activator.constructor` | plugin-name/Includes/Activator.php:32-35 | `REQUIRED_PLUGINS` is empty. |
| `Activation.Activator.CheckDependencies` | plugin-name/Includes/Activator.php:137-156 | It completes iff every required plugin is active on the current blog. On failure it deactivates `Activator.php`'s basename and dies, naming the first required plugin that is not active. With no required plugins it never deactivates or dies. |
| `Activation.Activator.EnsureCreateConfig` | plugin-name/Includes/Activator.php:165-172 | Only the current blog's store changes, and it becomes `InsertIfAbsent(store, name, configuration)`. |
| `Activation.Activator.Activate` | plugin-name/Includes/Activator.php:47-111 | Without `manage_network_plugins` (network-wide) or `activate_plugins`, it dies with nothing written and the blog unchanged. A network-wide activation switches once, in order, to every site id that `get_sites(['fields' => 'ids'])` returns, and completes iff every site's dependencies hold. A single-site activation on multisite switches to the main site only. On completion the tagged configuration is inserted-if-absent into the current blog (network-wide or no multisite) or the main site, and the current blog and switch stack are as before. |
| `Activation.Activator.ActivateNewSite` | plugin-name/Includes/Activator.php:119-128 | Nothing changes unless the plugin is network-active. Otherwise it switches to the new blog once and, on completion, the current blog and stack are as before. No option is ever written. |
| `RestApi.Api.constructor` | plugin-name/Includes/Api.php:73-74 | The namespace is the plugin slug followed by `/v1`. |
| `RestApi.Api.AuthStatusCode` | plugin-name/Includes/Api.php:216-225 | The status is 401 or 403, and 403 iff the user is logged in. |
| `RestApi.Api.PermissionCallback` | plugin-name/Includes/Api.php:151-155 | Access is granted iff the user can `read`. Otherwise the result is `rest_forbidden` with status `authStatusCode()`. |
| `RestApi.Api.ValidateCallback` | plugin-name/Includes/Api.php:189-195 | The result is `rest_invalid_param` with status 400 iff the value is not a string or is `""` or `"0"`, and no error for every other string. |
| `RestApi.Api.ValidArgumentIsNonEmptyString` | plugin-name/Includes/Api.php:192-194 | A value that passes validation is a string of length at least one, other than `"0"`. |
| `RestApi.Api.EndpointArgs` | plugin-name/Includes/Api.php:170-178 | Exactly one argument, `arg`, of type string and required. |
| `RestApi.Api.EndpointCallback` | plugin-name/Includes/Api.php:131-134 | Status 200, success true and empty data. |
| `RestApi.Api.EndpointIgnoresRequest` | plugin-name/Includes/Api.php:119-135 | Any two requests get the same answer. |

## Left out

- HTML output: the markup of `renderSettingsPageContent`, the field and section render callbacks of `AdminSettings`, and the contact form. They only concatenate strings for the browser.
- Hook, menu, settings and route registration (`setupSettingsMenu`, `add_settings_*`, `register_setting`, `registerRoutes`, `initializeHooks`, `defineHooks`): these are calls into WordPress. `Frontend.php` only enqueues assets. `ContactForm.php` calls nonce and sanitising functions of WordPress and dumps or exits. `class-plugin-name.php` loads files that are not part of this model.
- The internals of `strip_tags`, `esc_html`, `get_sites` and `current_user_can` are parameters or host fields. `stripslashes` is a parameter of the sanitize callbacks, and `Php.StripSlashes` models it where a lemma depends on what it does. So are `is_user_logged_in`, `is_multisite` and `get_main_site_id`. `__()` / `esc_html__()` are taken as the identity (English messages).
- `Api::sanitizeCallback` is left out: it only returns `sanitize_text_field($value)`, a WordPress function. The callback entries of the argument declaration are left out as well.
- PHP arrays are maps with string keys. Insertion order is not modelled: `foreach` visits each key once, and the sanitizer's result does not depend on the order. Integer keys, and array values inside submissions, options or REST arguments, are not modelled. `stripslashes` on an array fails in PHP, and that path is left out. A sanitize callback given a non-array is modelled only as `None`, which gives the empty array. The value that `foreach` warns about is not kept.
- `get_option` returning `false` for a stored `false` is not modelled: every stored option is an array.
- PHP's `==` between the `tab` parameter and a tab name is plain string equality here, which matches PHP for these non-numeric tab names.
- `require_once` and file I/O in the autoloader are left out. The outcome names the file to require, and "once" is not tracked.
- The branch of `checkDependencies` that reads the never-assigned `$multisite` is left out. PHP reads that variable as null, so only the other message can appear. The whole loop is unreachable while `REQUIRED_PLUGINS` is empty. `CheckDependencies` is modelled for any list and specialised to the empty one.
- `Activation.Activator.Activate`: after a dependency failure the contract does not say which blog is left current or that the configuration was already written. Such a failure cannot happen while `REQUIRED_PLUGINS` is empty.
- `get_sites(['fields' => 'ids'])` returns at most 100 ids unless a `number` is given, so on a larger network the loop of `activate` visits only the first 100 sites. `siteIds` is the result of that call, cap included, and the model does not compute it.
- `onActivation` is empty in the plugin and is an empty method here.
- The activation of a plugin by WordPress itself (the sandbox that discards a plugin whose activation dies) is outside the plugin.
