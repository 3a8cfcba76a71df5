/** The two UI locales and the lookup every component performs on its own
    static translation table. */
module I18n {

  /** The `'en' | 'zh'` language union. */
  datatype Lang = En | Zh

  /** The expression `translations[language][key] || key`: a string is falsy
      exactly when it is empty, so an empty table entry falls back to the key's
      own name. */
  function OrKey(value: string, keyName: string): (r: string)
    ensures r == value || r == keyName
    ensures value != "" ==> r == value
    ensures r != "" <==> value != "" || keyName != ""
  {
    if value != "" then value else keyName
  }
}
