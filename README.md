# ClassicPress SEO: a Dafny model of the plugin's core logic

ClassicPress SEO is a search-engine-optimisation plugin for the ClassicPress
CMS. Most of it is wiring to the host. This project models the three parts
that hold logic of their own, and proves what each one promises:

- **The plugin object** (`classicpress-seo.php`, module `Plugin`):
  - The magic `__get`, `__set` and `__isset` form a two-tier store. The first
    tier is the declared properties; the second is the `$container` array of
    named services.
  - `__call` answers five path names from a fixed table.
  - `requirements()` collects one error message per failed version check and
    gates `setup()`.
  - `get()` creates the single instance once.
  - `plugin_action_links` and `plugin_row_meta` filter the plugins screen's
    link lists.
  - The object is the class `ClassicPressSeo`, and the static `$instance` is
    the class `Registry`.
- **The Product rich snippet** (`class-product.php`, module `Product`):
  - The schema.org JSON-LD `Product` entity built from a post's meta fields.
  - The seller record.
  - The category breadcrumb joined with `" > "`.
- **The admin submenu fix-up** (`class-admin-menu.php`, module `AdminMenu`):
  - `fix_first_submenu` renames or drops the first item of the plugin's
    submenu.
  - It then records the slug of the first item left in a transient.

Module `Php` holds the runtime semantics these rely on:

- PHP truthiness: `""`, `"0"` and a missing value are falsy.
- PHP arrays are insertion-ordered maps, modelled as sequences of key/value
  pairs. `$a[k] = v` is `Assign`, `unset($a[k])` is `Unset`, and the
  reference definition of what `unset` leaves is `WithoutKey`.
- `join` and `explode`.

JSON objects keep their members in insertion order. That is why the key
order of the Product entity is part of what is proved.

Some behaviour of `__get` is worth knowing:

- `__get` consults the container first, so an entry there, even a null one,
  hides a declared property of the same name.
- Through the operations modelled here that cannot happen:
  `ClassicPressSeo.Valid` says the container never holds a declared name,
  and `Set` and `Setup` preserve it, because `__set` writes a declared name
  to the property itself.
- In PHP it can happen: `__set('container', ...)` (for instance
  `cpseo()->container = ['version' => null]` from outside the class) installs
  a whole new container, and a later `__get('version')` then returns that
  null. The model excludes writes of `container`, so it does not reach such
  a state.

## Model

| member | source | states |
|---|---|---|
| `Php.Assign` | includes/modules/rich-snippet/snippets/class-product.php:63-64 | `$a[k] = v`: an existing key keeps its place, a new key goes last; `k` then reads `v`, every other key reads as before, keys stay distinct |
| `Php.Unset` | includes/admin/class-admin-menu.php:91 | `unset($a[k])` leaves exactly the entries whose key is not `k`, in order, one fewer when `k` was present, keys distinct |
| `Php.Truthy` | includes/modules/rich-snippet/snippets/class-product.php:47 | PHP truthiness of a host value: "", "0" and a missing value are falsy, every other string is truthy; its uses at lines 47, 54, 57 and 62 are stated through it in the Product lemmas |
| `Php.Lookup` | includes/admin/class-admin-menu.php:88 | reading `$a[k]`: a value exactly when `k` is a key, and then the value stored under `k` |
| `Php.Join` | includes/modules/rich-snippet/snippets/class-product.php:135 | `join(sep, parts)`; what it produces for the breadcrumb is stated by the breadcrumb lemmas below |
| `Product.Offers` | includes/modules/rich-snippet/snippets/class-product.php:51-58 | the `offers` member; its members and values are stated by `Product.OffersMembers` |
| `Product.BaseEntity` | includes/modules/rich-snippet/snippets/class-product.php:44-59 | the entity before the brand is considered; stated by `Product.BaseEntityKeys` and `Product.BaseEntityMembers` |
| `Product.Process` | includes/modules/rich-snippet/snippets/class-product.php:40-68 | `Product::process` up to the WooCommerce and EDD hand-offs; stated by `Product.ProcessMembers` |
| `Product.OffersMembers` | includes/modules/rich-snippet/snippets/class-product.php:51-58 | the offer has exactly the six members in order; `@type` is "Offer"; price is the price meta when truthy, else "0"; availability is InStock exactly when the in-stock meta is truthy, else OutOfStock; currency, url and valid-until copied |
| `Product.BaseEntityKeys` | includes/modules/rich-snippet/snippets/class-product.php:44-59 | the entity's members are `@context`, `@type`, `sku`, `name`, `description`, `releaseDate`, `offers`, in that order, none twice |
| `Product.BaseEntityMembers` | includes/modules/rich-snippet/snippets/class-product.php:42-59 | `@context` is "https://schema.org/", `@type` is "Product", sku is the SKU meta when truthy else "", name/description/releaseDate are the title/desc/published parts unchanged, offers is the offer |
| `Product.ProcessMembers` | includes/modules/rich-snippet/snippets/class-product.php:40-68 | the entity is an object with no member twice; its members are the seven above, followed by `mpn` and `brand` exactly when the brand meta is truthy; the seven keep their values; `mpn` is the brand and `brand` a Thing named after it, otherwise both are absent |
| `Product.Seller` | includes/modules/rich-snippet/snippets/class-product.php:95-110 | `@type` is Person exactly when the knowledge-graph type is "person", else Organization; `@id` is site URL + "/"; url is the site URL; name is the website name; a `logo` member exists exactly when the type is "company" |
| `Product.GetCategory` | includes/modules/rich-snippet/snippets/class-product.php:118-136 | nothing for an error or an empty term list; the first term's name alone when its parent is 0; otherwise the ancestor names in the order given, then the term's name, joined by " > "; only the first term is used |
| `Product.BreadcrumbEndsWithName` | includes/modules/rich-snippet/snippets/class-product.php:133-135 | the breadcrumb ends with the first term's own name |
| `Product.BreadcrumbSeparatorCount` | includes/modules/rich-snippet/snippets/class-product.php:129-135 | when no name contains '>', the breadcrumb holds exactly one '>' per ancestor |
| `Product.ExplodeBreadcrumb` | includes/modules/rich-snippet/snippets/class-product.php:129-135 | when no name contains '>', splitting the breadcrumb on " > " gives back exactly the names joined |
| `Product.CategoryBreadcrumb` | includes/modules/rich-snippet/snippets/class-product.php:128-135 | the three breadcrumb facts together, for the ancestors and the term's name |
| `Plugin.ClassicPressSeo.constructor` | classicpress-seo.php:40-82 | a new object has version "0.2.2", db version "1", minimum ClassicPress "1.0.2" and PHP "7.0", an empty container and no messages |
| `Plugin.ClassicPressSeo.IsSet` | classicpress-seo.php:90-92 | `__isset` holds when the container has a non-null entry for the name, and always for `container` and `messages`; for a name that is no property, exactly when the container has a non-null entry |
| `Plugin.ClassicPressSeo.Get` | classicpress-seo.php:100-110 | a container entry wins, even a null one; otherwise the property's value, which is null for a name that is no property; a non-null result implies `__isset`; `__isset` with a null result only when the container holds an explicit null |
| `Plugin.ClassicPressSeo.Set` | classicpress-seo.php:118-125 | a declared property is written and the container is untouched; any other name is stored in the container and nothing else changes; a later `__get` of the name returns the value |
| `Plugin.RequirementMessages` | classicpress-seo.php:205-213 | one message per failed check, so at most two, ClassicPress first, each naming the minimum version; none exactly when both checks pass |
| `Plugin.ClassicPressSeo.Requirements` | classicpress-seo.php:203-224 | the messages grow by those of the failed checks; the result is true exactly when there are no messages; on failure exactly the two deactivation actions are hooked; nothing else changes |
| `Plugin.Instantiated` | classicpress-seo.php:270-287 | the services stored are exactly settings, json, notification, manager and rewrite, each an object |
| `Plugin.ClassicPressSeo.Setup` | classicpress-seo.php:177-196 | when the requirements pass, the plugin boots and the services join the container; when they fail, only the messages and the deactivation hooks change |
| `Plugin.Registry.Get` | classicpress-seo.php:165-172 | the first call creates a new object and runs setup on it, leaving the default properties, the failed checks' messages, and either the booted state with exactly the five services in the container or the unbooted state with an empty container and the two deactivation hooks; a later call returns the stored object unchanged; the stored object is always the one returned |
| `Plugin.Registry.GetTwice` | classicpress-seo.php:165-172 | two calls return the same object, and the second does not run setup again: the object keeps the state the first call's setup left |
| `Plugin.CallPath` | classicpress-seo.php:134-148 | exactly the five table names resolve: plugin_dir and plugin_url as they are, includes_dir, admin_dir and assets as the fixed suffixes of the plugin directory or URL; any other name is not in the table |
| `Plugin.ActionLinks` | classicpress-seo.php:366-372 | the links given, unchanged and in order, followed by exactly one Settings link to the given URL |
| `Plugin.RowMeta` | classicpress-seo.php:381-387 | the row meta comes back unchanged, whichever plugin the row is for |
| `AdminMenu.FixedMenu` | includes/admin/class-admin-menu.php:88-92 | the fixed submenu is still a PHP array: no key twice |
| `AdminMenu.RenameOnlyRetitles` | includes/admin/class-admin-menu.php:88-89 | when the user can manage options and entry 0 is titled exactly "Classic SEO", only that title changes, to "Dashboard"; every other field and entry stays in place |
| `AdminMenu.RemoveKeepsOrder` | includes/admin/class-admin-menu.php:90-92 | otherwise entry 0 is removed, if there is one, and the other entries keep their keys and their relative order |
| `AdminMenu.FirstRemaining` | includes/admin/class-admin-menu.php:94-99 | after a rename the first item keeps its slug; after removing a leading entry 0 the following item comes first; without an entry 0 the menu is unchanged |
| `AdminMenu.AdminMenu.FixFirstSubmenu` | includes/admin/class-admin-menu.php:82-100 | without a cpseo submenu nothing changes; otherwise only the cpseo submenu changes, to the fixed menu; the transient `cpseo_first_submenu_id` is set to the slug of its first remaining item, and is left alone when the menu ends up empty |

## Left out

- The WooCommerce and Easy Digital Downloads branches of `Product::process`
  (class-product.php:70-83). They hand the entity to `Product_WooCommerce` and
  `Product_Edd`; those classes are not part of this model. The model ends with
  the entity built before those branches.
- Calls into the host CMS become inputs:
  - Post meta is a map from meta key to string, where a missing key is a
    missing value. Non-string meta values are not modelled.
  - Permalink, site URL, website name, knowledge-graph type and logo are
    parameters.
  - `get_the_terms` is `TermsResult`, and `get_ancestors` with `get_term` is
    `Taxonomy`. A term the host cannot load has the name "", as PHP's `join`
    renders null.
  - `current_user_can` is a boolean, and `set_transient` writes the
    `transients` field.
  - The two `version_compare` checks are booleans.
  - `esc_html__` is the identity on its literal.
- `Plugin.CallPath`: does not model the fall-through to
  `call_user_func_array` (classicpress-seo.php:147), which calls an arbitrary
  global function. A name outside the table gives `None`.
- `Plugin.ClassicPressSeo.Set`: does not model writing `container` or
  `messages` (that would replace the store itself with an arbitrary value) or
  the static `instance`. Its requires excludes these three names.
- `Plugin.ClassicPressSeo.Requirements`: requires the two minimum-version
  properties to be strings. `sprintf` of other values is not modelled. This
  holds on the fresh object, where `get()` runs setup.
- `Plugin.ClassicPressSeo.Setup`: requires the same two properties to be
  strings, for the same reason.
- `Plugin.ClassicPressSeo.Setup`: the bootstrap steps `define_constants`,
  `includes` and `init_actions` are summarised as the `booted` flag. The hooks
  `init_actions` registers are not recorded. `instantiate` is modelled by the
  container entries it adds.
- `Plugin.ClassicPressSeo.Setup`: the `do_action( 'cpseo/loaded' )` that ends
  a successful setup (classicpress-seo.php:195) is not modelled; it runs
  other plugins' code.
- Also not modelled: `init_rest_api`, `init_admin`, `init_frontend`,
  `init_wp_cli`, `localization_setup`, `auto_deactivate`, the HTML of
  `activation_error`, and the empty `init`. All of these are host wiring or
  output.
- Services are objects known only by their class name. Object identity and
  sharing of services are not modelled, and `__get` of `container` returns the
  container's contents as a value.
- PHP calls the magic methods only for inaccessible or undeclared properties.
  The model exposes them as explicit members and does not model direct access
  to the public `version` and `db_version`.
- `Plugin.ActionLinks`: the link list is modelled as a list. How
  `array_merge` treats string keys is not modelled.
- `Admin_Menu::hooks`, `register_pages` (built on the `Page` class, which is
  not part of this model) and `icon_css` (CSS output) are left out.
- The admin option views and the social settings page are left out. They are
  declarative field definitions handed to a third-party metabox library, and
  not part of this model.
- A `$submenu` entry that is null (and so not `isset`) is modelled as an
  absent key.
