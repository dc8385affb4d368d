/**
 The ids of scheduled sends: `send_email:<client>:<draft>`, and
 `send_email_approved:<client>:<draft>` for a draft re-queued by an approval.
 Everything that reads one back splits it at ':' and takes positions 1 and 2.
 The rest of the model names a job by its parts; the lemmas here say why it may.
 */
module JobIds {
  import opened Options

  type ClientId = string
  type DraftId = string

  datatype Kind = SendEmail | SendEmailApproved

  /** An id this code wrote, or any other text found in the table. */
  datatype JobId = Named(kind: Kind, client: ClientId, draft: DraftId) | Other(text: string)

  datatype Target = Target(client: ClientId, draft: DraftId)

  /** `id.split(':')`, positions 1 and 2, both non-empty. */
  function Parse(id: JobId): Option<Target> {
    match id
    case Named(_, client, draft) => Some(Target(client, draft))
    case Other(text) => ParseText(text)
  }

  // ----- The text of an id --------------------------------------------------------------------

  predicate NoColon(s: string) {
    ':' !in s
  }

  function Split(s: string): (r: seq<string>)
    ensures |r| > 0
  {
    if s == "" then [""]
    else if s[0] == ':' then [""] + Split(s[1..])
    else var rest := Split(s[1..]); [[s[0]] + rest[0]] + rest[1..]
  }

  function ParseText(text: string): Option<Target> {
    var parts := Split(text);
    if |parts| < 3 || parts[1] == "" || parts[2] == "" then None else Some(Target(parts[1], parts[2]))
  }

  function Prefix(kind: Kind): string {
    match kind
    case SendEmail => "send_email"
    case SendEmailApproved => "send_email_approved"
  }

  function Render(id: JobId): string {
    match id
    case Named(kind, client, draft) => Prefix(kind) + ":" + client + ":" + draft
    case Other(text) => text
  }

  lemma {:induction false} SplitWord(word: string)
    requires NoColon(word)
    ensures Split(word) == [word]
  {
    if word != "" {
      SplitWord(word[1..]);
      assert [word[0]] + word[1..] == word;
    }
  }

  lemma {:induction false} SplitAt(word: string, rest: string)
    requires NoColon(word)
    ensures Split(word + ":" + rest) == [word] + Split(rest)
  {
    var text := word + ":" + rest;
    if word == "" {
      assert text[1..] == rest;
    } else {
      SplitAt(word[1..], rest);
      assert text[1..] == word[1..] + ":" + rest;
      assert [word[0]] + word[1..] == word;
    }
  }

  lemma SplitRendered(id: JobId)
    requires id.Named? && NoColon(id.client) && NoColon(id.draft)
    ensures Split(Render(id)) == [Prefix(id.kind), id.client, id.draft]
  {
    SplitAt(Prefix(id.kind), id.client + ":" + id.draft);
    assert Render(id) == Prefix(id.kind) + ":" + (id.client + ":" + id.draft);
    SplitAt(id.client, id.draft);
    SplitWord(id.draft);
  }

  /** Every id the code writes for a row id without ':' parses back to its client and its draft. */
  lemma RenderParses(id: JobId)
    requires id.Named? && NoColon(id.client) && NoColon(id.draft) && id.client != "" && id.draft != ""
    ensures ParseText(Render(id)) == Parse(id)
  {
    SplitRendered(id);
  }

  /** Two such ids have the same text only when they are the same job. */
  lemma RenderInjective(a: JobId, b: JobId)
    requires a.Named? && NoColon(a.client) && NoColon(a.draft)
    requires b.Named? && NoColon(b.client) && NoColon(b.draft)
    requires Render(a) == Render(b)
    ensures a == b
  {
    SplitRendered(a);
    SplitRendered(b);
    assert |Prefix(SendEmail)| != |Prefix(SendEmailApproved)|;
  }

  /**
   Any text is read as the client between its first two colons and the draft after the
   second, up to a third one; a text without two colons, or with nothing there, is refused.
   */
  lemma ParsedText(first: string, client: string, draft: string, more: Option<string>)
    requires NoColon(first) && NoColon(client) && NoColon(draft)
    ensures ParseText(first) == None && ParseText(first + ":" + client) == None
    ensures var text := first + ":" + (client + ":" + (draft + if more.Some? then ":" + more.value else ""));
            ParseText(text) == if client == "" || draft == "" then None else Some(Target(client, draft))
  {
    SplitWord(first);
    SplitWord(client);
    SplitAt(first, client);
    var rest := draft + if more.Some? then ":" + more.value else "";
    SplitAt(first, client + ":" + rest);
    SplitAt(client, rest);
    if more.Some? {
      SplitAt(draft, more.value);
      assert rest == draft + ":" + more.value;
    } else {
      assert rest == draft;
      SplitWord(draft);
    }
  }

  /** The two forms of id, as they are written. */
  lemma RenderedText(client: ClientId, draft: DraftId)
    ensures Render(Named(SendEmail, client, draft)) == "send_email:" + client + ":" + draft
    ensures Render(Named(SendEmailApproved, client, draft)) == "send_email_approved:" + client + ":" + draft
  {
    assert "send_email" + ":" == "send_email:" && "send_email_approved" + ":" == "send_email_approved:";
  }
}
