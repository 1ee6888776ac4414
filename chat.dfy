/** The chat service of the video-conference components: normalising and
    sending a chat message, and recording a received one. */
module Chat {

  import opened Wrappers

  /** `message.replace(/ +(?= )/g, '')`: every space that is followed by
      another space is deleted, so each run of spaces shrinks to its last
      space. Only U+0020 counts; tabs and other blanks are kept. */
  function Normalize(s: string): (r: string)
    ensures |r| <= |s|
  {
    if |s| <= 1 then s
    else if s[0] == ' ' && s[1] == ' ' then Normalize(s[1..])
    else [s[0]] + Normalize(s[1..])
  }

  predicate NoDoubleSpace(s: string)
  {
    forall i :: 0 <= i < |s| - 1 ==> !(s[i] == ' ' && s[i + 1] == ' ')
  }

  /** The characters of `s` other than spaces, in order. */
  function NonSpaces(s: string): string
  {
    if |s| == 0 then "" else (if s[0] == ' ' then "" else [s[0]]) + NonSpaces(s[1..])
  }

  /** A reference reading of the same rule, scanning from the left and
      keeping the first space of each run instead of the last. */
  function Squeeze(s: string, afterSpace: bool): string
  {
    if |s| == 0 then ""
    else if s[0] == ' ' && afterSpace then Squeeze(s[1..], true)
    else [s[0]] + Squeeze(s[1..], s[0] == ' ')
  }

  /** The result starts with the input's first character. */
  lemma {:induction false} NormalizeHead(s: string)
    requires |s| > 0
    ensures |Normalize(s)| > 0 && Normalize(s)[0] == s[0]
    decreases |s|
  {
    if |s| > 1 && s[0] == ' ' && s[1] == ' ' {
      NormalizeHead(s[1..]);
    }
  }

  /** No two consecutive spaces are left. */
  lemma {:induction false} NormalizeNoDoubleSpace(s: string)
    ensures NoDoubleSpace(Normalize(s))
    decreases |s|
  {
    if |s| > 1 {
      NormalizeNoDoubleSpace(s[1..]);
      if !(s[0] == ' ' && s[1] == ' ') {
        var rest := Normalize(s[1..]);
        NormalizeHead(s[1..]);
        var r := [s[0]] + rest;
        forall i | 0 <= i < |r| - 1 ensures !(r[i] == ' ' && r[i + 1] == ' ') {
          if i > 0 {
            assert r[i] == rest[i - 1] && r[i + 1] == rest[i];
          }
        }
      }
    }
  }

  /** A string without double spaces is left as it is. */
  lemma {:induction false} NormalizeFixed(s: string)
    requires NoDoubleSpace(s)
    ensures Normalize(s) == s
    decreases |s|
  {
    if |s| > 1 {
      assert !(s[0] == ' ' && s[1] == ' ');
      assert NoDoubleSpace(s[1..]) by {
        forall i | 0 <= i < |s| - 2 ensures !(s[1..][i] == ' ' && s[1..][i + 1] == ' ') {
          assert s[1..][i] == s[i + 1] && s[1..][i + 1] == s[i + 2];
        }
      }
      NormalizeFixed(s[1..]);
      assert [s[0]] + s[1..] == s;
    }
  }

  /** Normalising a second time changes nothing. */
  lemma NormalizeIdempotent(s: string)
    ensures Normalize(Normalize(s)) == Normalize(s)
  {
    NormalizeNoDoubleSpace(s);
    NormalizeFixed(Normalize(s));
  }

  /** Only spaces are deleted: every other character stays, in order. */
  lemma {:induction false} NormalizeKeepsNonSpaces(s: string)
    ensures NonSpaces(Normalize(s)) == NonSpaces(s)
    decreases |s|
  {
    if |s| > 1 {
      NormalizeKeepsNonSpaces(s[1..]);
      if !(s[0] == ' ' && s[1] == ' ') {
        assert ([s[0]] + Normalize(s[1..]))[1..] == Normalize(s[1..]);
      }
    }
  }

  /** Leading spaces removed. */
  function TrimSpaces(s: string): (r: string)
    ensures |r| <= |s|
    ensures |r| > 0 ==> r[0] != ' '
  {
    if |s| > 0 && s[0] == ' ' then TrimSpaces(s[1..]) else s
  }

  lemma {:induction false} SqueezeAfterSpace(s: string)
    ensures Squeeze(s, true) == Squeeze(TrimSpaces(s), false)
    decreases |s|
  {
    if |s| > 0 && s[0] == ' ' {
      SqueezeAfterSpace(s[1..]);
    }
  }

  lemma {:induction false} NormalizeSpaceThen(t: string)
    ensures Normalize([' '] + t) == [' '] + Normalize(TrimSpaces(t))
    decreases |t|
  {
    var s := [' '] + t;
    assert s[1..] == t;
    if |t| > 0 && t[0] == ' ' {
      NormalizeSpaceThen(t[1..]);
      assert [' '] + t[1..] == t;
    } else if |t| == 0 {
    }
  }

  /** The right-to-left rule of the regular expression and the left-to-right
      reference agree on every string: runs of spaces become one space. */
  lemma {:induction false} NormalizeIsSqueeze(s: string)
    ensures Normalize(s) == Squeeze(s, false)
    decreases |s|
  {
    if |s| > 0 {
      if s[0] == ' ' {
        assert s == [' '] + s[1..];
        NormalizeSpaceThen(s[1..]);
        SqueezeAfterSpace(s[1..]);
        NormalizeIsSqueeze(TrimSpaces(s[1..]));
      } else {
        NormalizeIsSqueeze(s[1..]);
        if |s| > 1 {
          assert Normalize(s) == [s[0]] + Normalize(s[1..]);
        }
      }
    }
  }

  predicate AllSpaces(s: string)
  {
    forall i :: 0 <= i < |s| ==> s[i] == ' '
  }

  /** A message normalises to "" or " " exactly when it holds nothing but
      spaces. */
  lemma {:induction false} NormalizeBlank(s: string)
    ensures Normalize(s) == "" || Normalize(s) == " " <==> AllSpaces(s)
    decreases |s|
  {
    if |s| > 1 {
      NormalizeBlank(s[1..]);
      if s[0] == ' ' && s[1] == ' ' {
        assert AllSpaces(s) <==> AllSpaces(s[1..]) by {
          if AllSpaces(s[1..]) {
            forall i | 0 <= i < |s| ensures s[i] == ' ' {
              if i > 0 { assert s[i] == s[1..][i - 1]; }
            }
          }
        }
      } else {
        NormalizeHead(s[1..]);
        var r := [s[0]] + Normalize(s[1..]);
        assert |r| >= 2;
      }
    }
  }

  /** The body of the chat signal. */
  datatype ChatData = ChatData(message: string, nickname: string)

  /** The signal `sendMessage` sends, if any: the normalised message and the
      sender's webcam nickname, unless the message is empty or one space. */
  function OutgoingSignal(message: string, webcamNickname: string): (r: Option<ChatData>)
    ensures r.None? <==> AllSpaces(message)
    ensures r.Some? ==> r.value.nickname == webcamNickname
    ensures r.Some? ==> r.value.message == Squeeze(message, false)
    ensures r.Some? ==> NoDoubleSpace(r.value.message) && NonSpaces(r.value.message) == NonSpaces(message)
  {
    NormalizeIsSqueeze(message);
    NormalizeBlank(message);
    NormalizeNoDoubleSpace(message);
    NormalizeKeepsNonSpaces(message);
    var normalized := Normalize(message);
    if normalized != "" && normalized != " " then Some(ChatData(normalized, webcamNickname)) else None
  }

  datatype ChatMessage = ChatMessage(isLocal: bool, nickname: string, message: string)

  datatype NotificationOptions = NotificationOptions(message: string, cssClassName: string, buttonActionText: string)

  /** ASCII upper-casing, standing in for `toUpperCase`. */
  function UpperChar(c: char): (u: char)
    ensures 'a' <= c <= 'z' ==> u as int == c as int - 32
    ensures !('a' <= c <= 'z') ==> u == c
  {
    if 'a' <= c <= 'z' then (c as int - 32) as char else c
  }

  function ToUpper(s: string): (r: string)
    ensures |r| == |s|
    ensures forall i :: 0 <= i < |s| ==> r[i] == UpperChar(s[i])
  {
    seq(|s|, i requires 0 <= i < |s| => UpperChar(s[i]))
  }

  /** The snackbar shown for a message from `nickname`. */
  function Notification(nickname: string): NotificationOptions
  {
    NotificationOptions(ToUpper(nickname) + " sent a message", "messageSnackbar", "READ")
  }

  /** The service's state: the message list, every value published to its
      subscribers, the notifications launched and the chat signals sent. */
  class ChatService {
    var messageList: seq<ChatMessage>
    var published: seq<seq<ChatMessage>>
    var notifications: seq<NotificationOptions>
    var sentSignals: seq<ChatData>

    /** Subscribers always hold the current list, and there is never more
        than one notification per received message. */
    ghost predicate Valid()
      reads this
    {
      && |published| > 0 && published[|published| - 1] == messageList
      && |notifications| <= |messageList|
    }

    constructor ()
      ensures Valid()
      ensures messageList == [] && published == [[]] && notifications == [] && sentSignals == []
    {
      messageList := [];
      published := [[]];
      notifications := [];
      sentSignals := [];
    }

    /** The handler `subscribeToChat` installs for chat signals. Whether the
        sender is this participant is decided by `ownConnectionIds`; whether
        the chat panel is open by `menuOpened`. */
    method OnChatSignal(fromConnectionId: string, data: ChatData, ownConnectionIds: set<string>, menuOpened: bool)
      requires Valid()
      modifies this
      ensures Valid()
      ensures messageList ==
              old(messageList) + [ChatMessage(fromConnectionId in ownConnectionIds, data.nickname, data.message)]
      ensures notifications == old(notifications) + (if menuOpened then [] else [Notification(data.nickname)])
      ensures published == old(published) + [messageList]
      ensures sentSignals == old(sentSignals)
    {
      var isMyOwnConnection := fromConnectionId in ownConnectionIds;
      messageList := messageList + [ChatMessage(isMyOwnConnection, data.nickname, data.message)];
      if !menuOpened {
        notifications := notifications + [Notification(data.nickname)];
      }
      published := published + [messageList];
    }

    /** `sendMessage`: at most one chat signal, and none for a message of
        spaces only; nothing else changes. */
    method SendMessage(message: string, webcamNickname: string)
      requires Valid()
      modifies this
      ensures Valid()
      ensures sentSignals == old(sentSignals) +
              (match OutgoingSignal(message, webcamNickname) case Some(d) => [d] case None => [])
      ensures messageList == old(messageList) && published == old(published)
      ensures notifications == old(notifications)
    {
      var normalized := Normalize(message);
      if normalized != "" && normalized != " " {
        sentSignals := sentSignals + [ChatData(normalized, webcamNickname)];
      }
    }
  }
}
