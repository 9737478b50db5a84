/**
 * The locale table and `getLocale`: a lookup in the `locales` object with a
 * fallback to the Chinese table for any key the lookup finds nothing under.
 * The lookup also reaches the members every object inherits from
 * `Object.prototype`, which are not message tables.
 */
module Locales {
  /** The two message tables, or an inherited object member found under `name`; messages are not part of this model. */
  datatype Table = ZhCn | EnUs | ObjectMember(name: string)

  /** The `locales` object's own keys: Vietnamese shares the English table. */
  const Locales: map<string, Table> := map["zh_cn" := ZhCn, "en_us" := EnUs, "vi_vn" := EnUs]

  /** The members of `Object.prototype`; each is truthy, so `||` keeps it. */
  const Inherited: set<string> := {
    "constructor", "__proto__", "toString", "toLocaleString", "valueOf", "hasOwnProperty",
    "isPrototypeOf", "propertyIsEnumerable", "__defineGetter__", "__defineSetter__",
    "__lookupGetter__", "__lookupSetter__"
  }

  /** `getLocale(lang)`: `locales[lang] || locales.zh_cn`. */
  function GetLocale(lang: string): (t: Table)
    ensures lang in Locales ==> t == Locales[lang]
    ensures lang !in Locales && lang in Inherited ==> t == ObjectMember(lang)
    ensures lang !in Locales && lang !in Inherited ==> t == ZhCn
  {
    if lang in Locales then Locales[lang]
    else if lang in Inherited then ObjectMember(lang)
    else ZhCn
  }

  /** The English table is chosen for exactly two keys. */
  lemma EnglishKeys(lang: string)
    ensures GetLocale(lang) == EnUs <==> lang == "en_us" || lang == "vi_vn"
  {
  }

  lemma KnownLanguages()
    ensures GetLocale("zh_cn") == ZhCn
    ensures GetLocale("en_us") == EnUs
    ensures GetLocale("vi_vn") == EnUs
  {
  }

  /** An inherited member name does not fall back: it yields that member instead of a message table. */
  lemma InheritedNamesAreNotTables()
    ensures GetLocale("constructor") == ObjectMember("constructor")
    ensures GetLocale("toString") == ObjectMember("toString")
    ensures GetLocale("__proto__") == ObjectMember("__proto__")
  {
  }
}
