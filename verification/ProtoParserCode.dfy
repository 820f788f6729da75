/**
  `parse_proto` as it runs (build.rs): a token vector consumed from the front, loops
  that push what they read, and early returns.
 */
module ProtoParserCode {
  import opened Basics
  import opened ProtoDescriptor
  import P = ProtoParser

  type Token = P.Token
  type Outcome<T> = P.Outcome<T>

  class Parser {
    var tokens: seq<Token>

    constructor (input: seq<Token>)
      ensures tokens == input
    {
      tokens := input;
    }

    /** What a method did is what the specification says of the tokens it found. */
    ghost predicate Agrees<T>(r: Outcome<T>, step: P.Step<T>)
      reads this
    {
      match step
      case Ok((value, rest)) => r == P.Ok(value) && tokens == rest && P.Live(tokens)
      case Err => r == P.Err
      case Panic => r == P.Panic
    }

    method Remove() returns (token: Token)
      requires tokens != []
      modifies this
      ensures token == old(tokens[0]) && tokens == old(tokens[1..])
    {
      token := tokens[0];
      tokens := tokens[1..];
    }

    method Expect(expected: Token) returns (r: Outcome<()>)
      requires expected != P.Eof && (tokens == [] || P.Live(tokens))
      modifies this
      ensures Agrees(r, P.Expect(old(tokens), expected))
    {
      if tokens == [] { return P.Err; }
      var actual := Remove();
      if actual == expected { return P.Ok(()); }
      return P.Err;
    }

    method ExpectIdent() returns (r: Outcome<string>)
      requires P.Live(tokens)
      modifies this
      ensures Agrees(r, P.ExpectIdent(old(tokens)))
    {
      var token := Remove();
      if token.Ident? { return P.Ok(token.text); }
      return P.Err;
    }

    method ExpectNumber() returns (r: Outcome<nat>)
      requires P.Live(tokens)
      modifies this
      ensures Agrees(r, P.ExpectNumber(old(tokens)))
    {
      var token := Remove();
      if token.Num? { return P.Ok(token.value); }
      return P.Err;
    }

    method FieldHead(leading: string) returns (r: Outcome<FieldType>)
      requires P.Live(tokens)
      modifies this
      ensures Agrees(r, P.FieldHead(leading, old(tokens)))
    {
      var name := leading;
      var repeated := false;
      if name == "repeated" {
        repeated := true;
        name :- ExpectIdent();
      }
      return P.Ok(P.TypeFor(name, repeated));
    }

    method ParseField(leading: string, fields: seq<FieldDef>) returns (r: Outcome<FieldDef>)
      requires P.Live(tokens)
      modifies this
      ensures Agrees(r, P.ParseField(leading, fields, old(tokens)))
    {
      var ty :- FieldHead(leading);
      var name :- ExpectIdent();
      var _ :- Expect(P.Eq);
      var number :- ExpectNumber();
      if number == 0 || number >= P.MAX_FIELD_NUMBER { return P.Err; }
      if P.Taken(fields, number) { return P.Err; }
      var _ :- Expect(P.Semicolon);
      return P.Ok(FieldDef(number, name, ty));
    }

    method ParseMessage() returns (r: Outcome<MessageDef>)
      requires P.Live(tokens)
      modifies this
      ensures Agrees(r, P.ParseMessage(old(tokens)))
    {
      var name :- ExpectIdent();
      var _ :- Expect(P.LBrace);
      var fields :- ParseFields();
      return P.Ok(MessageDef(name, fields));
    }

    /** The loop over a message's body. */
    method ParseFields() returns (r: Outcome<seq<FieldDef>>)
      requires P.Live(tokens)
      modifies this
      ensures Agrees(r, P.ParseFields([], old(tokens)))
    {
      var fields: seq<FieldDef> := [];
      while true
        invariant P.Live(tokens) && P.ParseFields(fields, tokens) == P.ParseFields([], old(tokens))
        decreases |tokens|
      {
        var token := Remove();
        if token == P.RBrace { return P.Ok(fields); }
        if !token.Ident? { return P.Err; }
        var field :- ParseField(token.text, fields);
        fields := fields + [field];
      }
    }

    method ParseRpc() returns (r: Outcome<Rpc>)
      requires P.Live(tokens)
      modifies this
      ensures Agrees(r, P.ParseRpc(old(tokens)))
    {
      var name :- ExpectIdent();
      var request :- ParseRequest();
      var _ :- Expect(P.Ident("returns"));
      var _ :- Expect(P.LParen);
      var kind :- ParseReturns();
      return P.Ok(Rpc(name, request, kind.0, kind.1));
    }

    method ParseRequest() returns (r: Outcome<string>)
      requires P.Live(tokens)
      modifies this
      ensures Agrees(r, P.ParseRequest(old(tokens)))
    {
      var _ :- Expect(P.LParen);
      var request :- ExpectIdent();
      var _ :- Expect(P.RParen);
      return P.Ok(request);
    }

    method ParseReturns() returns (r: Outcome<(string, bool)>)
      requires P.Live(tokens)
      modifies this
      ensures Agrees(r, P.ParseReturns(old(tokens)))
    {
      var streaming := false;
      if tokens != [] && tokens[0] == P.Ident("stream") {
        var _ := Remove();
        streaming := true;
      }
      var response :- ExpectIdent();
      var _ :- Expect(P.RParen);
      var _ :- Expect(P.Semicolon);
      return P.Ok((response, streaming));
    }

    method ParseService() returns (r: Outcome<Service>)
      requires P.Live(tokens)
      modifies this
      ensures Agrees(r, P.ParseService(old(tokens)))
    {
      var name :- ExpectIdent();
      var _ :- Expect(P.LBrace);
      var rpcs :- ParseRpcs();
      return P.Ok(Service(name, rpcs));
    }

    /** The loop over a service's body. */
    method ParseRpcs() returns (r: Outcome<seq<Rpc>>)
      requires P.Live(tokens)
      modifies this
      ensures Agrees(r, P.ParseRpcs([], old(tokens)))
    {
      var rpcs: seq<Rpc> := [];
      while true
        invariant P.Live(tokens) && P.ParseRpcs(rpcs, tokens) == P.ParseRpcs([], old(tokens))
        decreases |tokens|
      {
        var token := Remove();
        if token == P.RBrace { return P.Ok(rpcs); }
        if token != P.Ident("rpc") { return P.Err; }
        var rpc :- ParseRpc();
        rpcs := rpcs + [rpc];
      }
    }

    /** The quoted string is removed without a look at it: it may be the end marker. */
    method ParseSyntax() returns (r: Outcome<()>)
      requires P.Live(tokens)
      modifies this
      ensures Agrees(r, P.ParseSyntax(old(tokens)))
    {
      var _ :- Expect(P.Eq);
      var _ := Remove();
      r := Expect(P.Semicolon);
    }

    method ParsePackage() returns (r: Outcome<seq<string>>)
      requires P.Live(tokens)
      modifies this
      ensures Agrees(r, P.ParsePackage([], old(tokens)))
    {
      var parts: seq<string> := [];
      while true
        invariant P.Live(tokens) && P.ParsePackage(parts, tokens) == P.ParsePackage([], old(tokens))
        decreases |tokens|
      {
        var token := Remove();
        if token.Ident? {
          parts := parts + [token.text];
        } else if token == P.Semicolon {
          return P.Ok(parts);
        } else if token != P.Dot {
          return P.Err;
        }
      }
    }

    method ParseImport() returns (r: Outcome<ProtoFile>)
      requires P.Live(tokens)
      modifies this
      ensures r == P.ParseImport(old(tokens))
    {
      var target := Remove();
      if !target.Quoted? { return P.Err; }
      var _ := Remove();
      return P.Err;
    }

    method SkipOption() returns (r: Outcome<()>)
      requires P.Live(tokens)
      modifies this
      ensures Agrees(r, P.SkipOption(old(tokens)))
    {
      while true
        invariant P.Live(tokens) && P.SkipOption(tokens) == P.SkipOption(old(tokens))
        decreases |tokens|
      {
        var token := Remove();
        if token == P.Semicolon { return P.Ok(()); }
        if token == P.Eof { return P.Err; }
      }
    }

    /** One top-level item, after its keyword. */
    method ParseItem(keyword: string, file: ProtoFile) returns (r: Outcome<ProtoFile>)
      requires P.Live(tokens)
      modifies this
      ensures r.Ok? ==> P.Live(tokens) && |tokens| <= |old(tokens)|
      ensures r.Ok? ==> P.ParseItem(keyword, file, old(tokens)) == P.ParseItems(r.value, tokens)
      ensures !r.Ok? ==> r == P.ParseItem(keyword, file, old(tokens))
    {
      if keyword == "syntax" {
        var _ :- ParseSyntax();
        return P.Ok(file);
      } else if keyword == "package" {
        var parts :- ParsePackage();
        return P.Ok(file.(package := Some(P.JoinDots(parts))));
      } else if keyword == "message" {
        var message :- ParseMessage();
        return P.Ok(file.(messages := file.messages + [message]));
      } else if keyword == "service" {
        var service :- ParseService();
        return P.Ok(file.(services := file.services + [service]));
      } else if keyword == "import" {
        r := ParseImport();
      } else if keyword == "option" {
        var _ :- SkipOption();
        return P.Ok(file);
      } else {
        return P.Err;
      }
    }

    /** `parse_proto`, after the tokenizer */
    method ParseProto() returns (r: Outcome<ProtoFile>)
      requires P.Live(tokens)
      modifies this
      ensures r == P.Parse(old(tokens))
    {
      var file := P.EMPTY_FILE;
      while tokens != [] && tokens[0] != P.Eof
        invariant P.Live(tokens) && P.ParseItems(file, tokens) == P.ParseItems(P.EMPTY_FILE, old(tokens))
        decreases |tokens|
      {
        var token := Remove();
        if token == P.Semicolon { continue; }
        if !token.Ident? { return P.Err; }
        file :- ParseItem(token.text, file);
      }
      var ok := CheckReferences(file);
      return if ok then P.Ok(file) else P.Err;
    }
  }

  /** The closing check: every message type is declared in this file. */
  method CheckReferences(file: ProtoFile) returns (ok: bool)
    ensures ok <==> P.AllReferHere(file)
  {
    for i := 0 to |file.messages|
      invariant forall k :: 0 <= k < i ==>
        forall j :: 0 <= j < |file.messages[k].fields| ==> P.RefersHere(file, file.messages[k].fields[j].ty)
    {
      var fields := file.messages[i].fields;
      for j := 0 to |fields|
        invariant forall k :: 0 <= k < j ==> P.RefersHere(file, fields[k].ty)
      {
        var ty := fields[j].ty;
        if ty.Message? || ty.RepeatedMessage? {
          if !P.Declared(file, ty.name) { return false; }
        }
      }
    }
    return true;
  }
}
