/** The web-scraper page: a target URL, a list of parameter-to-selector
    mappings and the Playwright script text generated from them. */
module WebScraper {
  import opened Types
  import opened Strings
  import opened Lists

  // ---------------------------------------------------------------------
  // The generated script

  /** `m.param && m.selector`: both fields non-empty. */
  predicate IsValidMapping(m: Mapping) {
    m.param != "" && m.selector != ""
  }

  /** `mappings.filter(m => m.param && m.selector)`. */
  function ValidMappings(ms: seq<Mapping>): (r: seq<Mapping>)
    ensures |r| <= |ms|
    ensures forall m :: m in r <==> m in ms && IsValidMapping(m)
  {
    if ms == [] then []
    else (if IsValidMapping(ms[0]) then [ms[0]] else []) + ValidMappings(ms[1..])
  }

  lemma {:induction false} ValidMappingsAppend(a: seq<Mapping>, b: seq<Mapping>)
    ensures ValidMappings(a + b) == ValidMappings(a) + ValidMappings(b)
  {
    if a == [] {
      assert a + b == b;
    } else {
      assert (a + b)[1..] == a[1..] + b;
      ValidMappingsAppend(a[1..], b);
    }
  }

  /** The import, the `def` line with the URL embedded verbatim, and the
      browser set-up. */
  function Header(url: string): string {
    "from playwright.sync_api import sync_playwright\n\n"
    + "def scrape_parameters(url=\"" + url + "\"):\n"
    + "    with sync_playwright() as p:\n"
    + "        browser = p.chromium.launch()\n"
    + "        page = browser.new_page()\n"
    + "        page.goto(url)\n\n"
    + "        parameters = {}\n"
  }

  /** The `# Extract` block of one mapping. */
  function Block(m: Mapping): string {
    "        \n        # Extract " + m.param + "\n"
    + "        try:\n"
    + "            " + m.param + "_element = page.locator(\"" + m.selector + "\")\n"
    + "            parameters[\"" + m.param + "\"] = " + m.param + "_element.inner_text()\n"
    + "        except:\n"
    + "            parameters[\"" + m.param + "\"] = None\n"
  }

  /** The closing of the browser and the usage comment. */
  const Footer: string :=
    "\n        browser.close()\n"
    + "        return parameters\n\n"
    + "# Usage\n"
    + "# data = scrape_parameters()\n"
    + "# print(data)"

  /** The texts `f(m)` of the mappings, appended one after the other. */
  function ConcatMap(f: Mapping -> string, ms: seq<Mapping>): string {
    if ms == [] then "" else ConcatMap(f, ms[..|ms| - 1]) + f(ms[|ms| - 1])
  }

  lemma {:induction false} ConcatMapAppend(f: Mapping -> string, a: seq<Mapping>, b: seq<Mapping>)
    ensures ConcatMap(f, a + b) == ConcatMap(f, a) + ConcatMap(f, b)
    decreases |b|
  {
    if b == [] {
      assert a + b == a;
    } else {
      assert (a + b)[..|a + b| - 1] == a + b[..|b| - 1];
      ConcatMapAppend(f, a, b[..|b| - 1]);
    }
  }

  /** One more mapping appends its text. */
  lemma ConcatMapStep(f: Mapping -> string, ms: seq<Mapping>, i: nat)
    requires i < |ms|
    ensures ConcatMap(f, ms[..i + 1]) == ConcatMap(f, ms[..i]) + f(ms[i])
  {
    assert ms[..i + 1][..i] == ms[..i];
  }

  /** The blocks of the mappings, in order. */
  function Blocks(ms: seq<Mapping>): string {
    ConcatMap(Block, ms)
  }

  /** The whole script: header, one block per valid mapping, footer. */
  function ScraperCode(url: string, ms: seq<Mapping>): string {
    Header(url) + Blocks(ValidMappings(ms)) + Footer
  }

  /** The script always opens with the header and closes with the footer,
      and without a valid mapping it is nothing else. */
  lemma ScraperCodeShape(url: string, ms: seq<Mapping>)
    ensures |Header(url)| + |Footer| <= |ScraperCode(url, ms)|
    ensures ScraperCode(url, ms)[..|Header(url)|] == Header(url)
    ensures ScraperCode(url, ms)[|ScraperCode(url, ms)| - |Footer|..] == Footer
    ensures ValidMappings(ms) == [] ==> ScraperCode(url, ms) == Header(url) + Footer
  {
  }

  /** Appending a mapping appends its block when it is valid and nothing
      otherwise, so exactly the valid mappings appear, in list order. */
  lemma EmittedBlocks(ms: seq<Mapping>, m: Mapping)
    ensures Blocks(ValidMappings(ms + [m])) ==
      Blocks(ValidMappings(ms)) + (if IsValidMapping(m) then Block(m) else "")
  {
    ValidMappingsAppend(ms, [m]);
    ConcatMapAppend(Block, ValidMappings(ms), ValidMappings([m]));
    assert ValidMappings([m]) == (if IsValidMapping(m) then [m] else []) + ValidMappings([]);
    if IsValidMapping(m) {
      assert [m][..0] == [];
    }
  }

  /** Each block opens with the `# Extract` comment naming its parameter. */
  lemma BlockContents(m: Mapping)
    ensures Block(m)[..|"        \n        # Extract "| + |m.param|] == "        \n        # Extract " + m.param
  {
  }

  lemma AppendAssociates(a: string, b: string, c: string)
    ensures (a + b) + c == a + (b + c)
  {
  }

  /** The `forEach` of `generateScraperCode`: the block of each mapping is
      appended to the text, in order. */
  method AppendBlocks(start: string, valid: seq<Mapping>) returns (code: string)
    ensures code == start + Blocks(valid)
  {
    code := start;
    var i := 0;
    while i < |valid|
      invariant 0 <= i <= |valid|
      invariant code == start + Blocks(valid[..i])
    {
      ConcatMapStep(Block, valid, i);
      var block := Block(valid[i]);
      AppendAssociates(start, Blocks(valid[..i]), block);
      code := code + block;
      i := i + 1;
    }
    assert valid[..i] == valid;
  }

  /** `generateScraperCode`: the header, then the blocks of the valid
      mappings, then the footer. */
  method BuildScraperCode(url: string, ms: seq<Mapping>) returns (code: string)
    ensures code == ScraperCode(url, ms)
  {
    code := Header(url);
    code := AppendBlocks(code, ValidMappings(ms));
    code := code + Footer;
  }

  // ---------------------------------------------------------------------
  // The page state

  /** The two fields of a mapping (`keyof Mapping`). */
  datatype MappingField = ParamField | SelectorField

  /** `{ ...m, [field]: value }`. */
  function SetField(m: Mapping, field: MappingField, value: string): (r: Mapping)
    ensures field == ParamField ==> r.param == value && r.selector == m.selector
    ensures field == SelectorField ==> r.selector == value && r.param == m.param
  {
    match field
    case ParamField => m.(param := value)
    case SelectorField => m.(selector := value)
  }

  const EmptyMapping := Mapping("", "")

  const InitialCode: string :=
    "// Generated scraper code will appear here\n// Click \"Test Scraper\" to generate"

  /** The page's `useState` slots. */
  class Scraper {
    var targetUrl: string
    var mappings: seq<Mapping>
    var scraperCode: string

    /** The page opens with no URL, one empty mapping and the placeholder
        text. */
    constructor()
      ensures targetUrl == "" && mappings == [EmptyMapping] && scraperCode == InitialCode
    {
      targetUrl := "";
      mappings := [EmptyMapping];
      scraperCode := InitialCode;
    }

    /** `addMapping`: one empty mapping is appended. */
    method AddMapping()
      modifies this
      ensures mappings == old(mappings) + [EmptyMapping]
      ensures targetUrl == old(targetUrl) && scraperCode == old(scraperCode)
    {
      mappings := mappings + [EmptyMapping];
    }

    /** `removeMapping(index)`: only that mapping goes. */
    method RemoveMapping(index: int)
      modifies this
      ensures mappings == Without(old(mappings), index)
      ensures targetUrl == old(targetUrl) && scraperCode == old(scraperCode)
    {
      mappings := Without(mappings, index);
    }

    /** `updateMapping(index, field, value)` on a shown row: only that field
        of that mapping changes. */
    method UpdateMapping(index: int, field: MappingField, value: string)
      requires 0 <= index < |mappings|
      modifies this
      ensures mappings == old(mappings)[index := SetField(old(mappings)[index], field, value)]
      ensures targetUrl == old(targetUrl) && scraperCode == old(scraperCode)
    {
      mappings := mappings[index := SetField(mappings[index], field, value)];
    }

    /** The `Test Scraper` button: a blank URL leaves the text as it was,
        any other URL replaces it with the generated script. */
    method Generate()
      modifies this
      ensures IsBlank(old(targetUrl)) ==> scraperCode == old(scraperCode)
      ensures !IsBlank(old(targetUrl)) ==> scraperCode == ScraperCode(old(targetUrl), old(mappings))
      ensures targetUrl == old(targetUrl) && mappings == old(mappings)
    {
      if !IsBlank(targetUrl) {
        scraperCode := BuildScraperCode(targetUrl, mappings);
      }
    }
  }
}
