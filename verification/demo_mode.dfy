/**
 * Demo mode: the local responder used when no provider is configured or the
 * upstream call fails. It reads only the last message, lower-cases it, and
 * answers with the reply of the first keyword of a fixed, ordered table that
 * occurs anywhere in the text. When no keyword occurs it answers with one of
 * four generic replies, picked by a random index that is a parameter here.
 */
module DemoMode {
  import opened Wire

  /** JavaScript `text.includes(word)`: `word` occurs in `text` at some position. */
  predicate Contains(text: string, word: string)
    ensures word == [] ==> Contains(text, word)
    ensures Contains(text, word) ==> |word| <= |text|
    ensures word == text ==> Contains(text, word)
  {
    assert text[0..] == text;
    exists i | 0 <= i <= |text| :: word <= text[i..]
  }

  /**
   * `toLowerCase` on one character, for Basic Latin and the Cyrillic block
   * U+0400..U+042F (which covers the Russian alphabet); every other character
   * is left as it is.
   */
  function LowerChar(c: char): (l: char)
    ensures l != c <==> 'A' <= c <= 'Z' || 'Ѐ' <= c <= 'Я'
    ensures !('A' <= l <= 'Z' || 'Ѐ' <= l <= 'Я')
  {
    if 'A' <= c <= 'Z' then (c as int + 32) as char
    else if 'А' <= c <= 'Я' then (c as int + 32) as char
    else if 'Ѐ' <= c <= 'Џ' then (c as int + 80) as char
    else c
  }

  /** `toLowerCase` on a string, character by character: the result is in lower case. */
  function Lower(s: string): (r: string)
    ensures |r| == |s|
    ensures IsLower(r)
  {
    seq(|s|, k requires 0 <= k < |s| => LowerChar(s[k]))
  }

  /** Every character of `s` is already lower case. */
  predicate IsLower(s: string)
  {
    forall k :: 0 <= k < |s| ==> LowerChar(s[k]) == s[k]
  }

  /** The canned replies, one per keyword. */
  const GreetingReply: string := "Привет! 👋 Я ИИ помощник. Чем могу помочь?"
  const HowAreYouReply: string := "У меня всё отлично, спасибо! А у вас?"
  const JokeReply: string := "- Алло, это зоопарк?\n- Да.\n- А у вас жираф есть?\n- Есть.\n- А говорить умеет?\n- Нет.\n- А тогда кто мне только что ответил? 🦒😄"
  const CodeReply: string := "Конечно! Вот пример на JavaScript:\n\n```javascript\nfunction greet(name) {\n    return `Привет, ${name}!`;\n}\n\nconsole.log(greet(\"Мир\"));\n```"
  const AdviceReply: string := "**Совет дня**: Начинайте день с чего-то приятного - улыбки, музыки или доброго дела! 😊"
  const HelpReply: string := "Я могу помочь с:\n• Ответами на вопросы\n• Программированием\n• Советами\n• И многим другим!\n\nПросто спрашивайте!"
  const WhoAreYouReply: string := "Я ИИ помощник, созданный чтобы помогать людям. Работаю на современных языковых моделях!"
  const ThanksReply: string := "Пожалуйста! Рад помочь! 😊"
  const GoodbyeReply: string := "До свидания! Возвращайтесь если понадоблюсь! 👋"

  /** The keyword table: (keyword, reply) pairs, in the order they are searched. */
  const Table: seq<(string, string)> := [
    ("привет", GreetingReply),
    ("как дела", HowAreYouReply),
    ("анекдот", JokeReply),
    ("код", CodeReply),
    ("совет", AdviceReply),
    ("помощь", HelpReply),
    ("кто ты", WhoAreYouReply),
    ("спасибо", ThanksReply),
    ("пока", GoodbyeReply)
  ]

  /** Number of generic replies. */
  const DefaultCount: nat := 4

  /** The opening and the closing of the first generic reply, around the quoted message. */
  const QuoteOpening: string := "Вы сказали: \""
  const QuoteClosing: string := "\"\n\nЭто интересный вопрос! Я работаю в демо-режиме. Добавьте API ключ для полноценных ответов."

  /** The first generic reply: the user's message, quoted as it was written. */
  function Quote(original: string): (q: string)
    ensures q != "" && Contains(q, original)
  {
    var q := QuoteOpening + original + QuoteClosing;
    assert original <= q[|QuoteOpening|..];
    q
  }

  /** The other three generic replies. */
  const OtherDefaults: seq<string> := [
    "Я понял ваш вопрос! В демо-режиме мои возможности ограничены. Попробуйте спросить про анекдот, код или совет!",
    "Интересно! Для лучших ответов настройте API ключ (Groq, Together AI или HuggingFace).",
    "Понял! 👍 Хотите услышать анекдот, получить совет или помощь с кодом?"
  ]

  /**
   * The generic replies; the first one quotes the user's message as it was
   * written, before lower-casing.
   */
  function Defaults(original: string): (d: seq<string>)
    ensures |d| == DefaultCount
    ensures forall k :: 0 <= k < |d| ==> d[k] != ""
    ensures d[0] == Quote(original)
  {
    [Quote(original)] + OtherDefaults
  }

  /**
   * The first-match search: the index of the first entry of `table` whose
   * keyword occurs in `text`, or None when no keyword occurs.
   */
  function FindKeyword(table: seq<(string, string)>, text: string): (r: Option<nat>)
    ensures r.Some? ==> r.value < |table| && Contains(text, table[r.value].0)
    ensures r.Some? ==> forall m :: 0 <= m < r.value ==> !Contains(text, table[m].0)
    ensures r.None? ==> forall m :: 0 <= m < |table| ==> !Contains(text, table[m].0)
  {
    if table == [] then None
    else if Contains(text, table[0].0) then Some(0)
    else match FindKeyword(table[1..], text)
      case None => None
      case Some(j) => Some(j + 1)
  }

  /** `chatDemo`: the demo reply to a non-empty conversation. */
  function Reply(messages: seq<Message>, pick: nat): (r: Response)
    requires |messages| > 0
    requires pick < DefaultCount
    ensures IsSingleText(r) && TextOf(r) != ""
    ensures (exists j :: 0 <= j < |Table| && TextOf(r) == Table[j].1)
         || TextOf(r) in Defaults(Last(messages).content)
  {
    var original := Last(messages).content;
    match FindKeyword(Table, Lower(original))
    case Some(j) => Wrap(Table[j].1)
    case None => Wrap(Defaults(original)[pick])
  }

  /** The keyword at position `j` of the table is written in lower case. */
  lemma KeywordIsLower(j: nat)
    requires j < |Table|
    ensures IsLower(Table[j].0)
  {
  }

  /** Every keyword of the table is already lower case, so it can match the lower-cased text. */
  lemma KeywordsAreLowerCase()
    ensures forall j :: 0 <= j < |Table| ==> Lower(Table[j].0) == Table[j].0
  {
    forall j | 0 <= j < |Table| ensures Lower(Table[j].0) == Table[j].0 {
      KeywordIsLower(j);
    }
  }

  /** Lower-casing keeps every occurrence: if `word` occurs in `text`, its lower case occurs in the lower case of `text`. */
  lemma ContainsSurvivesLowering(text: string, word: string)
    requires Contains(text, word)
    ensures Contains(Lower(text), Lower(word))
  {
    var i :| 0 <= i <= |text| && word <= text[i..];
    var lt, lw := Lower(text), Lower(word);
    assert lw == lt[i..][..|lw|] by {
      forall k | 0 <= k < |lw| ensures lw[k] == lt[i..][..|lw|][k] {
        assert word[k] == text[i..][k];
      }
    }
    assert lw <= lt[i..];
  }

  /**
   * A table keyword written in any mix of upper and lower case anywhere in
   * the message is found by the search over the lower-cased text.
   */
  lemma KeywordFoundInAnyCase(content: string, written: string, j: nat)
    requires j < |Table| && Lower(written) == Table[j].0
    requires Contains(content, written)
    ensures Contains(Lower(content), Table[j].0)
  {
    ContainsSurvivesLowering(content, written);
  }

  /**
   * When some keyword occurs in the lower-cased last message, the reply is
   * that of the first such keyword in table order, whatever the random pick;
   * later matching keywords are ignored.
   */
  lemma ReplyIsFirstMatch(messages: seq<Message>, pick: nat, j: nat)
    requires |messages| > 0 && pick < DefaultCount
    requires j < |Table| && Contains(Lower(Last(messages).content), Table[j].0)
    requires forall m :: 0 <= m < j ==> !Contains(Lower(Last(messages).content), Table[m].0)
    ensures Reply(messages, pick) == Wrap(Table[j].1)
  {
  }

  /**
   * When no keyword occurs, the reply is the generic reply the pick selects,
   * one of exactly four; the first quotes the message as written.
   */
  lemma ReplyFallsBackToDefault(messages: seq<Message>, pick: nat)
    requires |messages| > 0 && pick < DefaultCount
    requires forall m :: 0 <= m < |Table| ==> !Contains(Lower(Last(messages).content), Table[m].0)
    ensures Reply(messages, pick) == Wrap(Defaults(Last(messages).content)[pick])
    ensures pick == 0 ==> Contains(TextOf(Reply(messages, pick)), Last(messages).content)
  {
  }

  /**
   * The reply depends only on the content of the last message: earlier
   * messages and the last message's role never change it.
   */
  lemma ReplyDependsOnlyOnLastContent(messages: seq<Message>, others: seq<Message>, pick: nat)
    requires |messages| > 0 && |others| > 0 && pick < DefaultCount
    requires Last(others).content == Last(messages).content
    ensures Reply(others, pick) == Reply(messages, pick)
  {
  }

  /** No keyword of the table contains an earlier one, so no entry is shadowed by the entries before it. */
  lemma KeywordsDoNotOverlap(j: nat, m: nat)
    requires m < j < |Table|
    ensures !Contains(Table[j].0, Table[m].0)
  {
    var text, word := Table[j].0, Table[m].0;
    var k := MissingIndex(j, m);
    MissingCharExcludes(text, word, k);
  }

  /** A position of keyword `m` holding a character that the later keyword `j` lacks. */
  function MissingIndex(j: nat, m: nat): (k: nat)
    requires m < j < |Table|
    ensures k < |Table[m].0| && Table[m].0[k] !in Table[j].0
  {
    if m == 0 then (if j in {5, 7, 8} then 1 else 0)
    else if m == 1 then (if j in {2, 8} then 3 else if j in {3, 6} then 1 else 0)
    else if m == 2 then (if j in {7, 8} then 1 else 0)
    else if m == 3 then (if j in {6, 8} then 2 else 0)
    else if m == 4 then (if j == 7 then 2 else 0)
    else if m == 5 then (if j == 6 then 0 else 2)
    else if m == 6 then (if j == 7 then 0 else 1)
    else 0
  }

  /** A word with a character that does not occur in `text` does not occur in `text`. */
  lemma MissingCharExcludes(text: string, word: string, k: nat)
    requires k < |word| && word[k] !in text
    ensures !Contains(text, word)
  {
  }

  /**
   * Every table entry can be reached: a message consisting of keyword `j`
   * alone is answered with reply `j`, whatever the random pick.
   */
  lemma EachKeywordAnswersItself(messages: seq<Message>, pick: nat, j: nat)
    requires |messages| > 0 && pick < DefaultCount
    requires j < |Table| && Last(messages).content == Table[j].0
    ensures Reply(messages, pick) == Wrap(Table[j].1)
  {
    KeywordsAreLowerCase();
    forall m | 0 <= m < j ensures !Contains(Lower(Last(messages).content), Table[m].0) {
      KeywordsDoNotOverlap(j, m);
    }
    ReplyIsFirstMatch(messages, pick, j);
  }
}
