/**
 * The NPC characters and the message log they write into.
 *
 * Each task category has a small cast of characters with a completion and a
 * failure repertoire. Completing or failing a task in a category appends one
 * message, spoken by one of that category's characters and drawn from the
 * matching repertoire, to an append-only log whose entries carry a read flag.
 */
module Npcs {
  import opened Tasks

  datatype Npc = Npc(
    id: string,
    name: string,
    avatar: string,
    category: TaskCategory,
    personality: string,
    completionMessages: seq<string>,
    failureMessages: seq<string>,
    isPrimary: bool)

  /**
   * One entry of the log. The program's random UUID `id` is a number handed
   * out by the repository, which is all that its uniqueness needs; the
   * timestamp is a minute on the model's clock.
   */
  datatype NpcMessage = NpcMessage(
    id: nat,
    npcId: string,
    npcName: string,
    npcAvatar: string,
    message: string,
    category: TaskCategory,
    timestamp: int,
    isRead: bool,
    isFailure: bool)

  /** The repertoire a message is drawn from. */
  function Lines(n: Npc, failure: bool): seq<string> {
    if failure then n.failureMessages else n.completionMessages
  }

  /** A character that can always say something, whatever the outcome. */
  predicate Speaks(n: Npc) {
    |n.completionMessages| > 0 && |n.failureMessages| > 0
  }

  /**
   * The cast as the repository creates it: two characters per category, the
   * first of each pair primary. Each character is a function of its own and
   * each long line is written as a concatenation of short literals; the text
   * is the program's, unchanged.
   */
  function Roster(): seq<Npc> {
    [CommanderVarek(), KarloButcher(), DrRada(), EliasArchivist(), MedicTasha(), BrotherCaleb(),
     Nomad(), Marika(), Grifter(), ViktorMule(), TheVoice(), OldManKaspar()]
  }

  function CommanderVarek(): Npc {
    Npc(
      "commander_varek", "Commander " + "Varek", "npc_varek", Work,
      "Strict, " + "pragmatic, " + "and " + "relentless.",
      [
        "You did " + "what " + "needed " + "to be " + "done. " + "That's " + "how " + "survivors " + "are " + "made.",
        "Keep " + "this " + "up, and " + "maybe " + "you'll " + "earn " + "something " + "more " + "than " + "just " + "survival.",
        "Good. " + "There's " + "no room " + "for " + "slackers " + "here."],
      [
        "One " + "task " + "undone " + "is one " + "crack " + "in the " + "foundation. " + "Enough " + "cracks, " + "and " + "everything " + "collapses.",
        "You " + "think " + "you'll " + "get " + "another " + "chance? " + "The " + "wasteland " + "doesn't " + "do " + "second " + "chances.",
        "Discipline " + "wins " + "wars. " + "Laziness " + "loses " + "them."],
      true)
  }

  function KarloButcher(): Npc {
    Npc(
      "karlo_butcher", "Karlo " + "\"The " + "Butcher\"", "npc_karlo", Work,
      "Gruff, " + "no-nonsense, " + "dark " + "sense " + "of " + "humor.",
      [
        "Work " + "ain't " + "pretty, " + "but it " + "keeps " + "your " + "hands " + "from " + "shaking.",
        "You get " + "your " + "job " + "done, " + "you get " + "to eat. " + "Simple " + "as that.",
        "Not " + "bad. " + "You " + "might " + "actually " + "survive " + "out " + "here."],
      [
        "I used " + "to know " + "a guy " + "who " + "skipped " + "work " + "too " + "much. " + "He's " + "fertilizer " + "now.",
        "You " + "think " + "someone " + "else is " + "gonna " + "carry " + "your " + "weight? " + "Not in " + "this " + "world.",
        "Idle " + "hands " + "bring " + "bad " + "luck. " + "You " + "don't " + "want " + "bad " + "luck."],
      false)
  }

  function DrRada(): Npc {
    Npc(
      "dr_rada", "Dr. Rada", "npc_rada", Study,
      "Intellectual, " + "slightly " + "eccentric, " + "driven " + "by " + "curiosity.",
      [
        "You've " + "added " + "another " + "piece " + "to the " + "puzzle. " + "Don't " + "stop " + "now.",
        "A sharp " + "mind is " + "more " + "dangerous " + "than a " + "dull " + "blade.",
        "If " + "knowledge " + "dies, " + "so does " + "the " + "world. " + "Keep " + "learning."],
      [
        "The " + "ignorant " + "don't " + "last " + "long " + "out " + "here.",
        "Every " + "day you " + "waste, " + "history " + "forgets " + "another " + "name. " + "Don't " + "let it " + "be " + "yours.",
        "You " + "didn't " + "study? " + "Then " + "you " + "just " + "chose " + "to be " + "prey."],
      true)
  }

  function EliasArchivist(): Npc {
    Npc(
      "elias_archivist", "Elias " + "\"The " + "Archivist\"", "npc_elias", Study,
      "Nostalgic, " + "melancholic, " + "but " + "determined.",
      [
        "You " + "remind " + "me of " + "the " + "students " + "I once " + "taught. " + "Before " + "the " + "silence " + "took " + "everything.",
        "You may " + "not see " + "it now, " + "but " + "this " + "knowledge " + "will " + "save " + "you one " + "day.",
        "One " + "more " + "page " + "remembered, " + "one " + "less " + "piece " + "of the " + "past " + "lost."],
      [
        "A world " + "without " + "knowledge " + "is a " + "world " + "without " + "light. " + "Do you " + "really " + "want to " + "live in " + "the " + "dark?",
        "I've " + "seen " + "bright " + "minds " + "waste " + "away " + "because " + "they " + "stopped " + "caring. " + "Don't " + "follow " + "their " + "path.",
        "Ignoring " + "wisdom " + "is like " + "ignoring " + "a " + "loaded " + "gun " + "pointed " + "at you."],
      false)
  }

  function MedicTasha(): Npc {
    Npc(
      "medic_tasha", "Medic " + "Tasha", "npc_tasha", Health,
      "Compassionate " + "but " + "no-nonsense.",
      [
        "Taking " + "care of " + "yourself " + "isn't " + "selfish. " + "It's " + "necessary.",
        "A " + "strong " + "body " + "keeps " + "you " + "alive. " + "A weak " + "one " + "makes " + "you a " + "target.",
        "You're " + "one of " + "the few " + "who " + "actually " + "listen. " + "Good."],
      [
        "Neglect " + "yourself, " + "and the " + "world " + "will do " + "the " + "rest.",
        "I don't " + "patch " + "up " + "fools. " + "Take " + "care of " + "yourself.",
        "Sick, " + "weak, " + "tired—pick " + "any of " + "those " + "and you " + "won't " + "last " + "long."],
      true)
  }

  function BrotherCaleb(): Npc {
    Npc(
      "brother_caleb", "Brother " + "Caleb", "npc_caleb", Health,
      "Calm, " + "philosophical, " + "slightly " + "eerie.",
      [
        "You " + "heal " + "yourself, " + "you " + "heal " + "the " + "world " + "in " + "small " + "ways.",
        "Good. " + "Life is " + "a " + "fragile " + "ember—you " + "must " + "tend it " + "carefully.",
        "Pain is " + "a " + "lesson. " + "Strength " + "is its " + "reward."],
      [
        "The " + "body is " + "a " + "temple. " + "Yours " + "is " + "crumbling.",
        "Even " + "the " + "strongest " + "fall " + "when " + "their " + "health " + "fades.",
        "Do you " + "wish to " + "meet " + "the " + "void so " + "soon?"],
      false)
  }

  function Nomad(): Npc {
    Npc(
      "nomad", "Nomad", "npc_nomad", Personal,
      "Mysterious, " + "poetic, " + "deeply " + "introspective.",
      [
        "You did " + "something " + "for " + "yourself. " + "That's " + "rare in " + "a world " + "that " + "only " + "takes.",
        "Even " + "the " + "smallest " + "step " + "forward " + "is " + "still " + "movement.",
        "You are " + "not " + "just " + "surviving. " + "You are " + "living. " + "Keep " + "going."],
      [
        "A road " + "unwalked " + "is a " + "journey " + "lost.",
        "You " + "ignore " + "yourself " + "today, " + "you " + "lose " + "yourself " + "tomorrow.",
        "Your " + "soul " + "needs " + "care " + "too. " + "Don't " + "let it " + "wither."],
      true)
  }

  function Marika(): Npc {
    Npc(
      "marika", "Marika", "npc_marika", Personal,
      "Wistful, " + "slightly " + "melancholic " + "but " + "hopeful.",
      [
        "You " + "found " + "time " + "for " + "yourself. " + "That " + "means " + "you're " + "still " + "human.",
        "Personal " + "time is " + "like a " + "rare " + "artifact—cherish " + "it.",
        "A " + "little " + "beauty " + "in this " + "world " + "of ash? " + "That's " + "worth " + "something."],
      [
        "Too " + "busy " + "for " + "yourself? " + "That's " + "how " + "people " + "become " + "empty " + "shells.",
        "Neglecting " + "what " + "makes " + "you " + "you? " + "Dangerous " + "mistake.",
        "You can " + "run " + "from " + "yourself, " + "but you " + "won't " + "get far."],
      false)
  }

  function Grifter(): Npc {
    Npc(
      "grifter", "Grifter", "npc_grifter", Shopping,
      "Cunning, " + "sarcastic, " + "always " + "looking " + "for a " + "deal.",
      [
        "You got " + "what " + "you " + "needed. " + "Smart " + "move.",
        "Preparedness " + "is the " + "difference " + "between " + "a " + "survivor " + "and a " + "corpse.",
        "You " + "planned " + "ahead? " + "Good. " + "That's " + "rare."],
      [
        "No " + "supplies? " + "No " + "problem. " + "Just " + "hope " + "you " + "don't " + "get " + "hungry.",
        "A fool " + "and " + "their " + "last " + "meal " + "are " + "soon " + "parted.",
        "Ever " + "seen " + "someone " + "desperate? " + "It's " + "not " + "pretty. " + "Stock " + "up next " + "time."],
      true)
  }

  function ViktorMule(): Npc {
    Npc(
      "viktor_mule", "Viktor " + "\"The " + "Mule\"", "npc_viktor", Shopping,
      "Gruff, " + "but " + "secretly " + "enjoys " + "helping " + "people.",
      [
        "You " + "stocked " + "up? " + "You're " + "smarter " + "than " + "most.",
        "A full " + "bag " + "today " + "keeps " + "desperation " + "away " + "tomorrow.",
        "Supplies " + "are " + "life. " + "Don't " + "forget " + "that."],
      [
        "No " + "supplies? " + "Hope " + "you " + "like " + "bartering " + "with " + "bullets.",
        "Hungry, " + "cold, " + "unprepared—you're " + "setting " + "yourself " + "up for " + "trouble.",
        "Ran out " + "of " + "essentials? " + "What's " + "next, " + "selling " + "your " + "boots?"],
      false)
  }

  function TheVoice(): Npc {
    Npc(
      "the_voice", "The " + "Voice", "npc_voice", Other,
      "Mysterious " + "radio " + "broadcaster.",
      [
        "Every " + "action " + "changes " + "the " + "tide. " + "You did " + "well.",
        "A step " + "forward " + "is a " + "step " + "away " + "from " + "the " + "abyss.",
        "The " + "world " + "watches. " + "Keep " + "moving."],
      [
        "Stagnation " + "is a " + "slow " + "death. " + "Beware.",
        "You " + "lost " + "today, " + "but " + "tomorrow " + "is " + "unwritten.",
        "Even " + "shadows " + "move. " + "Why " + "don't " + "you?"],
      true)
  }

  function OldManKaspar(): Npc {
    Npc(
      "old_man_kaspar", "Old Man " + "Kaspar", "npc_kaspar", Other,
      "Crazy " + "hermit, " + "speaks " + "in " + "riddles.",
      [
        "The " + "gears " + "turn, " + "the " + "wheel " + "moves. " + "Keep " + "pushing.",
        "Another " + "day " + "won, " + "another " + "ghost " + "left " + "behind."],
      [
        "A " + "stalled " + "engine " + "rusts " + "away. " + "Get " + "moving.",
        "The " + "stars " + "whisper " + "warnings. " + "Listen " + "before " + "it's " + "too " + "late."],
      false)
  }

  /** `npcs.filter { it.category == category }`. */
  function CategoryNpcs(npcs: seq<Npc>, category: TaskCategory): (r: seq<Npc>)
    ensures |r| <= |npcs|
    ensures forall n :: n in r <==> n in npcs && n.category == category
  {
    if |npcs| == 0 then []
    else if npcs[0].category == category then [npcs[0]] + CategoryNpcs(npcs[1..], category)
    else CategoryNpcs(npcs[1..], category)
  }

  /** Every character of the cast can speak in both moods. */
  lemma RosterSpeaks()
    ensures forall n :: n in Roster() ==> Speaks(n)
  {
    assert Speaks(CommanderVarek());
    assert Speaks(KarloButcher());
    assert Speaks(DrRada());
    assert Speaks(EliasArchivist());
    assert Speaks(MedicTasha());
    assert Speaks(BrotherCaleb());
    assert Speaks(Nomad());
    assert Speaks(Marika());
    assert Speaks(Grifter());
    assert Speaks(ViktorMule());
    assert Speaks(TheVoice());
    assert Speaks(OldManKaspar());
  }

  /** The primary character of each category. */
  function Primary(category: TaskCategory): Npc {
    match category
    case Work => CommanderVarek()
    case Study => DrRada()
    case Health => MedicTasha()
    case Personal => Nomad()
    case Shopping => Grifter()
    case Other => TheVoice()
  }

  /** Every category's primary character is in the cast and can speak. */
  lemma PrimaryInRoster(category: TaskCategory)
    ensures Primary(category) in Roster()
    ensures Primary(category).category == category && Primary(category).isPrimary
    ensures Speaks(Primary(category))
  {
  }

  /** Every category has a character, so a generate call never finds an empty cast. */
  lemma RosterCoversCategories()
    ensures forall category :: |CategoryNpcs(Roster(), category)| > 0
  {
    forall category: TaskCategory
      ensures |CategoryNpcs(Roster(), category)| > 0
    {
      PrimaryInRoster(category);
      assert Primary(category) in CategoryNpcs(Roster(), category);
    }
  }

  /**
   * `m` is a fresh, unread message spoken by a character of `npcs` from
   * `category`, with its text from that character's repertoire for the
   * outcome `failure`, stamped with the clock `now`.
   */
  ghost predicate SpokenBy(m: NpcMessage, npcs: seq<Npc>, category: TaskCategory, failure: bool, now: int) {
    exists n :: n in npcs && n.category == category &&
      m.npcId == n.id && m.npcName == n.name && m.npcAvatar == n.avatar &&
      m.message in Lines(n, failure) &&
      m.category == category && m.timestamp == now && !m.isRead && m.isFailure == failure
  }

  /**
   * `after` is `before` followed by one message per entry of `categories`,
   * each spoken by a character of that category with the outcome `failure`
   * at the clock `now`.
   */
  ghost predicate LogExtends(before: seq<NpcMessage>, after: seq<NpcMessage>, npcs: seq<Npc>,
                             categories: seq<TaskCategory>, failure: bool, now: int) {
    |after| == |before| + |categories| && after[..|before|] == before &&
    forall k :: 0 <= k < |categories| ==> SpokenBy(after[|before| + k], npcs, categories[k], failure, now)
  }

  /** A log extends itself by nothing. */
  lemma LogExtendsNone(log: seq<NpcMessage>, npcs: seq<Npc>, failure: bool, now: int)
    ensures LogExtends(log, log, npcs, [], failure, now)
  {
  }

  /** Two extensions in a row are one extension by both lists of categories. */
  lemma LogExtendsTrans(a: seq<NpcMessage>, b: seq<NpcMessage>, c: seq<NpcMessage>, npcs: seq<Npc>,
                        first: seq<TaskCategory>, second: seq<TaskCategory>, failure: bool, now: int)
    requires LogExtends(a, b, npcs, first, failure, now)
    requires LogExtends(b, c, npcs, second, failure, now)
    ensures LogExtends(a, c, npcs, first + second, failure, now)
  {
    assert c[..|a|] == c[..|b|][..|a|];
    forall k | 0 <= k < |first + second|
      ensures SpokenBy(c[|a| + k], npcs, (first + second)[k], failure, now)
    {
      if k < |first| {
        assert c[|a| + k] == c[..|b|][|a| + k];
      } else {
        assert c[|a| + k] == c[|b| + (k - |first|)];
      }
    }
  }

  /** The list after `markMessageAsRead(id)`: only that message's flag is set. */
  function MarkRead(ms: seq<NpcMessage>, id: nat): (r: seq<NpcMessage>)
    ensures |r| == |ms|
    ensures forall i :: 0 <= i < |ms| ==>
      r[i].isRead == (ms[i].isRead || ms[i].id == id) && r[i].(isRead := ms[i].isRead) == ms[i]
  {
    seq(|ms|, i requires 0 <= i < |ms| => if ms[i].id == id then ms[i].(isRead := true) else ms[i])
  }

  /** The list after `markAllMessagesAsRead()`. */
  function MarkAllRead(ms: seq<NpcMessage>): (r: seq<NpcMessage>)
    ensures |r| == |ms|
    ensures forall i :: 0 <= i < |ms| ==> r[i].isRead && r[i].(isRead := ms[i].isRead) == ms[i]
  {
    seq(|ms|, i requires 0 <= i < |ms| => ms[i].(isRead := true))
  }

  /** `messages.count { !it.isRead }`. */
  function UnreadCount(ms: seq<NpcMessage>): (n: nat)
    ensures n <= |ms|
  {
    if |ms| == 0 then 0
    else UnreadCount(ms[..|ms| - 1]) + (if ms[|ms| - 1].isRead then 0 else 1)
  }

  /** Nothing is unread exactly when every message has been read. */
  lemma {:induction false} NoneUnread(ms: seq<NpcMessage>)
    ensures UnreadCount(ms) == 0 <==> forall i :: 0 <= i < |ms| ==> ms[i].isRead
    decreases |ms|
  {
    if |ms| > 0 {
      var k := |ms| - 1;
      NoneUnread(ms[..k]);
      assert forall i :: 0 <= i < k ==> ms[..k][i] == ms[i];
    }
  }

  /** Appending one message raises the count by one exactly when it is unread. */
  lemma {:induction false} UnreadCountAppend(ms: seq<NpcMessage>, m: NpcMessage)
    ensures UnreadCount(ms + [m]) == UnreadCount(ms) + (if m.isRead then 0 else 1)
  {
    assert (ms + [m])[..|ms|] == ms;
  }

  /** After marking all as read nothing is unread, and marking again changes nothing. */
  lemma MarkAllReadClears(ms: seq<NpcMessage>)
    ensures UnreadCount(MarkAllRead(ms)) == 0
    ensures MarkAllRead(MarkAllRead(ms)) == MarkAllRead(ms)
  {
    NoneUnread(MarkAllRead(ms));
  }

  /** Marking one message never raises the unread count. */
  lemma {:induction false} MarkReadNeverRaises(ms: seq<NpcMessage>, id: nat)
    ensures UnreadCount(MarkRead(ms, id)) <= UnreadCount(ms)
    decreases |ms|
  {
    if |ms| > 0 {
      var r := MarkRead(ms, id);
      var k := |ms| - 1;
      MarkReadNeverRaises(ms[..k], id);
      assert r[..k] == MarkRead(ms[..k], id);
    }
  }

  /**
   * Marking the one unread message with a given id lowers the count by one.
   */
  lemma {:induction false} MarkReadUnique(ms: seq<NpcMessage>, j: nat)
    requires j < |ms| && !ms[j].isRead
    requires forall i :: 0 <= i < |ms| && i != j ==> ms[i].id != ms[j].id
    ensures UnreadCount(MarkRead(ms, ms[j].id)) == UnreadCount(ms) - 1
    decreases |ms|
  {
    var id := ms[j].id;
    var r := MarkRead(ms, id);
    var k := |ms| - 1;
    assert r[..k] == MarkRead(ms[..k], id);
    assert UnreadCount(r) == UnreadCount(r[..k]) + (if r[k].isRead then 0 else 1);
    assert UnreadCount(ms) == UnreadCount(ms[..k]) + (if ms[k].isRead then 0 else 1);
    if j == k {
      MarkReadLeaves(ms[..k], id);
      assert r[k].isRead;
    } else {
      MarkReadUnique(ms[..k], j);
      assert r[k] == ms[k];
    }
  }

  /** Marking an id no message carries changes nothing. */
  lemma MarkReadLeaves(ms: seq<NpcMessage>, id: nat)
    requires forall i :: 0 <= i < |ms| ==> ms[i].id != id
    ensures MarkRead(ms, id) == ms
  {
  }

  /**
   * The repository: a fixed cast and the message log. `nextId` hands out
   * message ids, standing in for the program's random UUIDs.
   */
  class NpcRepository {
    const npcs: seq<Npc>
    var messages: seq<NpcMessage>
    var nextId: nat

    /**
     * Every character can speak, and ids are handed out in order: the message
     * at position `i` has id `i` and the next id is the length of the log, so
     * no two messages share an id.
     */
    ghost predicate Valid()
      reads this
    {
      (forall n :: n in npcs ==> Speaks(n)) &&
      nextId == |messages| &&
      (forall i :: 0 <= i < |messages| ==> messages[i].id == i)
    }

    constructor()
      ensures npcs == Roster() && messages == [] && nextId == 0
      ensures Valid()
    {
      npcs := Roster();
      messages := [];
      nextId := 0;
      RosterSpeaks();
    }

    /**
     * The shared body of the two generate calls: pick a character of the
     * category and a line of the outcome's repertoire, and append the message.
     */
    method Generate(category: TaskCategory, failure: bool, now: int)
      requires Valid()
      modifies this
      ensures Valid()
      ensures |CategoryNpcs(npcs, category)| == 0 ==> messages == old(messages) && nextId == old(nextId)
      ensures |CategoryNpcs(npcs, category)| > 0 ==>
        |messages| == |old(messages)| + 1 && messages[..|old(messages)|] == old(messages) &&
        SpokenBy(messages[|old(messages)|], npcs, category, failure, now) &&
        messages[|old(messages)|].id == old(nextId) &&
        messages[|old(messages)|].timestamp == now &&
        nextId == old(nextId) + 1 &&
        UnreadCount(messages) == UnreadCount(old(messages)) + 1
      ensures |CategoryNpcs(npcs, category)| > 0 ==> LogExtends(old(messages), messages, npcs, [category], failure, now)
    {
      var categoryNpcs := CategoryNpcs(npcs, category);
      if |categoryNpcs| == 0 {
        return;
      }
      assert categoryNpcs[0] in categoryNpcs;
      var npc :| npc in categoryNpcs;
      var lines := Lines(npc, failure);
      assert lines[0] in lines;
      var text :| text in lines;
      var m := NpcMessage(nextId, npc.id, npc.name, npc.avatar, text, category, now, false, failure);
      UnreadCountAppend(messages, m);
      messages := messages + [m];
      nextId := nextId + 1;
    }

    /** `generateCompletionMessage(category)`. */
    method GenerateCompletionMessage(category: TaskCategory, now: int)
      requires Valid()
      modifies this
      ensures Valid()
      ensures |CategoryNpcs(npcs, category)| == 0 ==> messages == old(messages) && nextId == old(nextId)
      ensures |CategoryNpcs(npcs, category)| > 0 ==>
        |messages| == |old(messages)| + 1 && messages[..|old(messages)|] == old(messages) &&
        SpokenBy(messages[|old(messages)|], npcs, category, false, now) &&
        messages[|old(messages)|].id == old(nextId) &&
        messages[|old(messages)|].timestamp == now &&
        nextId == old(nextId) + 1 &&
        UnreadCount(messages) == UnreadCount(old(messages)) + 1
      ensures |CategoryNpcs(npcs, category)| > 0 ==> LogExtends(old(messages), messages, npcs, [category], false, now)
    {
      Generate(category, false, now);
    }

    /** `generateFailureMessage(category)`. */
    method GenerateFailureMessage(category: TaskCategory, now: int)
      requires Valid()
      modifies this
      ensures Valid()
      ensures |CategoryNpcs(npcs, category)| == 0 ==> messages == old(messages) && nextId == old(nextId)
      ensures |CategoryNpcs(npcs, category)| > 0 ==>
        |messages| == |old(messages)| + 1 && messages[..|old(messages)|] == old(messages) &&
        SpokenBy(messages[|old(messages)|], npcs, category, true, now) &&
        messages[|old(messages)|].id == old(nextId) &&
        messages[|old(messages)|].timestamp == now &&
        nextId == old(nextId) + 1 &&
        UnreadCount(messages) == UnreadCount(old(messages)) + 1
      ensures |CategoryNpcs(npcs, category)| > 0 ==> LogExtends(old(messages), messages, npcs, [category], true, now)
    {
      Generate(category, true, now);
    }

    /** `markMessageAsRead(messageId)`. */
    method MarkMessageAsRead(messageId: nat)
      requires Valid()
      modifies this
      ensures Valid()
      ensures messages == MarkRead(old(messages), messageId) && nextId == old(nextId)
      ensures UnreadCount(messages) <= UnreadCount(old(messages))
      ensures forall j :: 0 <= j < |old(messages)| && old(messages)[j].id == messageId && !old(messages)[j].isRead ==>
                UnreadCount(messages) == UnreadCount(old(messages)) - 1
    {
      MarkReadNeverRaises(messages, messageId);
      if j :| 0 <= j < |messages| && messages[j].id == messageId && !messages[j].isRead {
        MarkReadUnique(messages, j);
      }
      messages := MarkRead(messages, messageId);
    }

    /** `markAllMessagesAsRead()`. */
    method MarkAllMessagesAsRead()
      requires Valid()
      modifies this
      ensures Valid()
      ensures messages == MarkAllRead(old(messages)) && nextId == old(nextId)
      ensures UnreadCount(messages) == 0
    {
      MarkAllReadClears(messages);
      messages := MarkAllRead(messages);
    }

    /** `getUnreadMessageCount()`. */
    function GetUnreadMessageCount(): (n: nat)
      reads this
      ensures n <= |messages|
      ensures n == 0 <==> forall i :: 0 <= i < |messages| ==> messages[i].isRead
    {
      NoneUnread(messages);
      UnreadCount(messages)
    }
  }
}
