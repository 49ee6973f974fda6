/** What goes over the wire, byte by byte: the numerics and the relayed commands as they are written
    (src/b/ReplyBuilder.cpp). */
module Wording {
  import opened Wire
  import opened Modes
  import opened Model

  /** A command as relayed from `c`. */
  function FromClient(c: Client, text: string): string {
    ":" + (c.nick + "!" + c.username + "@" + c.host) + " " + text + "\r\n"
  }

  /** A numeric of the server. */
  function FromServer(code: string, target: string, params: string, text: string): string {
    ":irc.local " + (code + " " + target + (if params == "" then "" else " " + params) + (" :" + text)) + "\r\n"
  }

  function Addressee(c: Client): string { if c.nick == "" then "*" else c.nick }

  // ----- The bytes of each line -------------------------------------------------------------

  lemma {:induction false} SpacedOne(a: string)
    ensures Spaced([a]) == " " + a
  {
    assert [a][1..] == [] && " " + a + "" == " " + a;
  }

  lemma {:induction false} SpacedTwo(a: string, b: string)
    ensures Spaced([a, b]) == " " + a + (" " + b)
  {
    assert [a, b][1..] == [b];
    SpacedOne(b);
  }

  lemma {:induction false} SpacedThree(a: string, b: string, c: string)
    ensures Spaced([a, b, c]) == " " + a + (" " + b + (" " + c))
  {
    assert [a, b, c][1..] == [b, c];
    SpacedTwo(b, c);
  }

  /** A line with a prefix. */
  lemma {:induction false} PrefixedBytes(l: Line, text: string)
    requires l.prefix != "" && text == l.command + Tail(l)
    ensures Render(l) == ":" + l.prefix + " " + text + "\r\n"
  {
    Regrouped(":" + l.prefix + " ", l.command, Tail(l));
  }

  lemma {:induction false} ClientBytes(c: Client, l: Line, text: string)
    requires l.prefix == FullPrefix(c) && text == l.command + Tail(l)
    ensures Render(l) == FromClient(c, text)
  {
    assert l.prefix != "" by { assert '!' in l.prefix; }
    PrefixedBytes(l, text);
  }

  lemma {:induction false} ServerBytes(code: string, target: string, params: string, text: string)
    ensures Render(Numeric(code, target, params, text)) == FromServer(code, target, params, text)
  {
    var l := Numeric(code, target, params, text);
    var middles := " " + target + if params == "" then "" else " " + params;
    if params == "" {
      assert l.middles == [target];
      SpacedOne(target);
      assert middles == " " + target;
    } else {
      assert l.middles == [target, params];
      SpacedTwo(target, params);
    }
    assert Tail(l) == middles + (" :" + text);
    ServerText(code, target, if params == "" then "" else " " + params, " :" + text, middles);
    PrefixedBytes(l, code + Tail(l));
    assert ":" + SERVER_NAME + " " == ":irc.local ";
  }

  lemma {:induction false} ServerText(code: string, target: string, params: string, rest: string, middles: string)
    requires middles == " " + target + params
    ensures code + (middles + rest) == code + " " + target + params + rest
  {
  }

  /** A command with one parameter. */
  lemma {:induction false} ChannelBytes(c: Client, command: string, name: string)
    ensures Render(ChannelLine(c, command, name)) == FromClient(c, command + " " + name)
  {
    var l := ChannelLine(c, command, name);
    SpacedOne(name);
    assert Tail(l) == " " + name;
    Regrouped(command, " ", name);
    ClientBytes(c, l, command + " " + name);
  }

  /** A command with a parameter and a text. */
  lemma {:induction false} TextBytes(c: Client, command: string, target: string, text: string)
    ensures Render(TextLine(c, command, target, text)) == FromClient(c, command + " " + target + " :" + text)
  {
    var l := TextLine(c, command, target, text);
    SpacedOne(target);
    assert Tail(l) == " " + target + (" :" + text);
    assert command + (" " + target + (" :" + text)) == command + " " + target + " :" + text;
    ClientBytes(c, l, command + " " + target + " :" + text);
  }

  lemma {:induction false} InviteBytes(c: Client, nick: string, name: string)
    ensures Render(InviteLine(c, nick, name)) == FromClient(c, "INVITE" + " " + nick + " :" + name)
  {
    assert InviteLine(c, nick, name) == TextLine(c, "INVITE", nick, name);
    TextBytes(c, "INVITE", nick, name);
  }

  lemma {:induction false} KickBytes(c: Client, name: string, nick: string, reason: string)
    ensures Render(KickLine(c, name, nick, reason)) == FromClient(c, "KICK " + name + " " + nick + " :" + reason)
  {
    var l := KickLine(c, name, nick, reason);
    SpacedTwo(name, nick);
    assert Tail(l) == " " + name + (" " + nick) + (" :" + reason);
    assert "KICK" + (" " + name + (" " + nick) + (" :" + reason)) == "KICK " + name + " " + nick + " :" + reason;
    ClientBytes(c, l, "KICK " + name + " " + nick + " :" + reason);
  }

  lemma {:induction false} QuitBytes(c: Client, reason: string)
    ensures Render(QuitLine(c, reason)) == FromClient(c, "QUIT :" + reason)
  {
    var l := QuitLine(c, reason);
    assert Tail(l) == " :" + reason;
    assert "QUIT" + (" :" + reason) == "QUIT :" + reason;
    ClientBytes(c, l, "QUIT :" + reason);
  }

  lemma {:induction false} ModeBytes(c: Client, name: string, token: string, arg: string)
    ensures Render(ModeLine(c, name, token, arg)) ==
            FromClient(c, "MODE " + name + " " + token + if arg == "" then "" else " " + arg)
  {
    var l := ModeLine(c, name, token, arg);
    var more := if arg == "" then "" else " " + arg;
    if arg == "" {
      assert l.middles == [name, token];
      SpacedTwo(name, token);
    } else {
      assert l.middles == [name, token, arg];
      SpacedThree(name, token, arg);
    }
    ModeText(name, token, more, Tail(l));
    ClientBytes(c, l, "MODE " + name + " " + token + more);
  }

  lemma {:induction false} ModeText(name: string, token: string, more: string, tail: string)
    requires tail == " " + name + (" " + token + more)
    ensures "MODE" + tail == "MODE " + name + " " + token + more
  {
  }

  lemma {:induction false} InvitingBytes(c: Client, nick: string, name: string)
    ensures Render(Inviting(c, nick, name)) ==
            ":irc.local " + ("341 " + Addressee(c) + " " + nick + " " + name) + "\r\n"
  {
    var l, to := Inviting(c, nick, name), Addressee(c);
    SpacedThree(to, nick, name);
    assert "341" + (" " + to + (" " + nick + (" " + name))) == "341 " + to + " " + nick + " " + name;
    PrefixedBytes(l, "341 " + to + " " + nick + " " + name);
    assert ":" + SERVER_NAME + " " == ":irc.local ";
  }

  lemma {:induction false} PongBytes(token: string)
    ensures Render(Pong(token)) == ":irc.local " + ("PONG irc.local :" + token) + "\r\n"
  {
    var l := Pong(token);
    SpacedOne(SERVER_NAME);
    assert "PONG" + (" " + "irc.local" + (" :" + token)) == "PONG irc.local :" + token;
    PrefixedBytes(l, "PONG irc.local :" + token);
    assert ":" + SERVER_NAME + " " == ":irc.local ";
  }

  // ----- The catalogue of numerics ----------------------------------------------------------

  predicate Worded(n: Numeral, code: string, text: string) { n.Code() == code && n.Text() == text }

  lemma {:induction false} ThreeDigits(n: nat)
    requires 100 <= n < 1000
    ensures Decimal(n) == [Digit(n / 100), Digit(n / 10 % 10), Digit(n % 10)]
  {
    assert Digits(n / 100) == [Digit(n / 100)];
    assert Digits(n / 10) == [Digit(n / 100)] + [Digit(n / 10 % 10)];
  }

  // Number and text of each numeric, as they are in the source.

  lemma {:induction false} NamesWorded()
    ensures Worded(ERR_NOSUCHNICK, "401", "No such nick/channel")
    ensures Worded(ERR_NOSUCHCHANNEL, "403", "No such channel")
    ensures Worded(ERR_ERRONEUSNICKNAME, "432", "Erroneous nickname")
    ensures Worded(ERR_NICKNAMEINUSE, "433", "Nickname is already in use")
  {
    ThreeDigits(401);
    ThreeDigits(403);
    ThreeDigits(432);
    ThreeDigits(433);
  }

  lemma {:induction false} MembersWorded()
    ensures Worded(ERR_CANNOTSENDTOCHAN, "404", "Cannot send to channel")
    ensures Worded(ERR_USERNOTINCHANNEL, "441", "You are not on that channel")
    ensures Worded(ERR_NOTONCHANNEL, "442", "You are not on that channel")
    ensures Worded(ERR_USERONCHANNEL, "443", "is already on channel")
  {
    ThreeDigits(404);
    ThreeDigits(441);
    ThreeDigits(442);
    ThreeDigits(443);
  }

  lemma {:induction false} RegistrationWorded()
    ensures Worded(ERR_NOTREGISTERED, "451", ":You have not registered")
    ensures Worded(ERR_NEEDMOREPARAMS, "461", "Not enough parameters")
    ensures Worded(ERR_ALREADYREGISTERED, "462", "You may not reregister")
    ensures Worded(ERR_PASSWDMISMATCH, "464", "Password incorrect")
  {
    ThreeDigits(451);
    ThreeDigits(461);
    ThreeDigits(462);
    ThreeDigits(464);
  }

  lemma {:induction false} GatesWorded()
    ensures Worded(ERR_CHANNELISFULL, "471", "Cannot join channel (+l)")
    ensures Worded(ERR_INVITEONLYCHAN, "473", "Cannot join channel (+i)")
    ensures Worded(ERR_BADCHANNELKEY, "475", "Cannot join channel (+k)")
    ensures Worded(ERR_CHANOPRIVSNEEDED, "482", "You are not channel operator")
  {
    ThreeDigits(471);
    ThreeDigits(473);
    ThreeDigits(475);
    ThreeDigits(482);
  }

  lemma {:induction false} ModesWorded()
    ensures Worded(ERR_UNKNOWNCOMMAND, "421", "Unknown command")
    ensures Worded(ERR_UNKNOWNMODE, "472", "is unknown mode char to me")
    ensures Worded(ERR_INVALIDMODEPARAM, "696", "Invalid mode parameter")
  {
    ThreeDigits(421);
    ThreeDigits(472);
    ThreeDigits(696);
  }

  lemma {:induction false} QueriesWorded()
    ensures Worded(RPL_NOTOPIC, "331", "No topic is set")
    ensures Worded(RPL_ENDOFNAMES, "366", "End of /NAMES list")
  {
    ThreeDigits(331);
    ThreeDigits(366);
  }
}
