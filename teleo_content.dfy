/** The Teleo content script: which section of the admin panel is open. */
module TeleoContent {
  import opened Text

  const STAFF := "staff"
  const ROUTING := "routing"
  const EXTENSIONS := "extensions"
  const MAIN := "main"

  /** `getCurrentSection()`: the first of '/staff/', '/routing', '/extension'
      found in the path names the section; anything else is the main page. */
  function GetCurrentSection(path: string): (r: string)
    ensures r == STAFF <==> Contains(path, "/staff/")
    ensures r == ROUTING <==> !Contains(path, "/staff/") && Contains(path, "/routing")
    ensures r == EXTENSIONS <==>
      !Contains(path, "/staff/") && !Contains(path, "/routing") && Contains(path, "/extension")
    ensures r == MAIN <==>
      !Contains(path, "/staff/") && !Contains(path, "/routing") && !Contains(path, "/extension")
  {
    if Includes(path, "/staff/") then STAFF
    else if Includes(path, "/routing") then ROUTING
    else if Includes(path, "/extension") then EXTENSIONS
    else MAIN
  }

  /** The classifier is total over four values, and the staff test wins over
      the other two: a path naming both staff and routing is a staff page. */
  lemma SectionIsKnown(path: string)
    ensures GetCurrentSection(path) in [STAFF, ROUTING, EXTENSIONS, MAIN]
    ensures Contains(path, "/staff/") && Contains(path, "/routing") ==> GetCurrentSection(path) == STAFF
    ensures Contains(path, "/routing") ==> GetCurrentSection(path) in [STAFF, ROUTING]
  {
  }

  /** The `PARSE_TELEO` reply's data. */
  datatype TeleoData = TeleoData(source: string, url: string, section: string, isLoginPage: bool, title: string)

  /** `collectData()`; the url, path, title and the login-form probe are read
      from the page and arrive as parameters. */
  function CollectData(url: string, path: string, loginForms: nat, title: string): (d: TeleoData)
    ensures d.source == "teleo" && d.url == url && d.title == title
    ensures d.isLoginPage <==> loginForms > 0
    ensures d.section == GetCurrentSection(path) && d.section in [STAFF, ROUTING, EXTENSIONS, MAIN]
  {
    SectionIsKnown(path);
    TeleoData("teleo", url, GetCurrentSection(path), loginForms > 0, title)
  }
}
