/** services/prompts/contracts.py: the second version of the contract fits every asset that holds its lines. */
module PromptContractV2 {
  import opened Text
  import opened PromptValidation
  import opened PromptCompiler
  import opened PromptProofs

  const TITLES: seq<string> := [
    "КОНТЕКСТ СЕССИИ (ФАКТЫ)", "ЖУРНАЛ СНОВ (ДОСЛОВНО)", "СВОДКА СЕССИИ (СТРУКТУРА)",
    "ПРАВИЛА РЕФЛЕКСИИ", "АНАЛИТИЧЕСКИЙ ФОКУС", "ФОРМАТ ОТВЕТА (JSON)"]

  function Heading(i: nat): string
    requires i < 6
  {
    ['#', '#', ' ', DIGITS[i + 1], '.', ' '] + TITLES[i]
  }

  function Required(names: seq<string>): seq<FieldSpec> {
    seq(|names|, i requires 0 <= i < |names| => FieldSpec(names[i], true))
  }

  const FRAMEWORK_ITEMS: seq<string> := [
    "1. Ключевые мотивы и образы",
    "2. Эмоциональный тон и динамика",
    "3. Повторяющиеся символы",
    "4. Возможные архетипические гипотезы (1-3, только при опоре на материал)",
    "5. Внутренние напряжения / конфликт",
    "6. Открытые вопросы для дальнейшего исследования"]

  const CONTRACT: Contract := Contract(
    "[CONTROLLED JUNGIAN PROMPT v2]",
    [Section(Heading(0), Required(CONTEXT_LABELS)), Section(Heading(1), []), Section(Heading(2), Required(SUMMARY_LABELS)),
     Section(Heading(3), []), Section(Heading(4), []), Section(Heading(5), [])],
    ["Вы — аналитический модуль юнгианской рефлексии.", "Правила:", "- Сон не имеет фиксированного значения."],
    FRAMEWORK_ITEMS,
    ["Верните только один JSON-объект.", "Обязательные JSON-ключи:"])

  /** The lines of an asset from which the contract's required lines are not missing. */
  ghost predicate AssetOk(fixed: Fixed) {
    && FixedLines(fixed.instructions) && FixedLines(fixed.framework) && FixedLines(fixed.output)
    && Covers(fixed.instructions, CONTRACT.instructionLines)
    && Covers(fixed.framework, CONTRACT.frameworkItems)
    && Covers(fixed.output, CONTRACT.outputLines)
  }

  lemma TitleIsQuiet(i: nat, k: nat)
    requires i < 6 && k < |TITLES[i]|
    ensures TITLES[i][k] != '#' && TITLES[i][k] != '\n'
  {
    match i
    case 0 => assert TITLES[0] == "КОНТЕКСТ СЕССИИ (ФАКТЫ)";
    case 1 => assert TITLES[1] == "ЖУРНАЛ СНОВ (ДОСЛОВНО)";
    case 2 => assert TITLES[2] == "СВОДКА СЕССИИ (СТРУКТУРА)";
    case 3 => assert TITLES[3] == "ПРАВИЛА РЕФЛЕКСИИ";
    case 4 => assert TITLES[4] == "АНАЛИТИЧЕСКИЙ ФОКУС";
    case _ => assert TITLES[5] == "ФОРМАТ ОТВЕТА (JSON)";
  }

  lemma HeadingShape(i: nat)
    requires i < 6
    ensures |Heading(i)| >= 6 && Heading(i)[0] == '#' && Heading(i)[1] == '#' && Heading(i)[2] == ' '
    ensures Heading(i)[3] == DIGITS[i + 1] && '\n' !in Heading(i)
    ensures forall k :: 2 <= k < |Heading(i)| ==> Heading(i)[k] != '#'
  {
    var h := Heading(i);
    assert DIGITS[i + 1] != '#' && DIGITS[i + 1] != '\n';
    forall k | 2 <= k < |h| ensures h[k] != '#' && h[k] != '\n' {
      if k >= 6 {
        assert h[k] == TITLES[i][k - 6];
        TitleIsQuiet(i, k - 6);
      }
    }
  }

  /** The number in a heading keeps it out of the others. */
  lemma HeadingsApart(i: nat, j: nat)
    requires i < j < 6
    ensures !Contains(Heading(i), Heading(j))
  {
    var h, pat := Heading(i), Heading(j);
    HeadingShape(i);
    HeadingShape(j);
    assert DIGITS[i + 1] != DIGITS[j + 1];
    forall p: nat | p + |pat| <= |h| ensures !Occurs(pat, h, p) {
      var s := h[p..p + |pat|];
      assert s[0] == h[p] && s[1] == h[p + 1] && s[3] == h[p + 3];
    }
  }

  /** Version 2 meets every assumption about contracts with every asset that holds its required lines. */
  lemma ContractFits(fixed: Fixed)
    requires AssetOk(fixed)
    ensures ContractOk(CONTRACT, fixed)
  {
    forall i | 0 <= i < 6
      ensures CONTRACT.sections[i].heading == Heading(i) && Heading(i) != "" && Heading(i)[0] == '#' && '\n' !in Heading(i)
    {
      HeadingShape(i);
    }
    forall i, j | 0 <= i < j < 6 ensures !Contains(CONTRACT.sections[i].heading, CONTRACT.sections[j].heading) {
      HeadingsApart(i, j);
    }
    PrefixIsQuiet();
    assert Names(Required(CONTEXT_LABELS)) == CONTEXT_LABELS && Names(Required(SUMMARY_LABELS)) == SUMMARY_LABELS;
  }

  lemma PrefixIsQuiet()
    ensures '#' !in CONTRACT.prefix
  {
    assert CONTRACT.prefix == "[CONTROLLED JUNGIAN PROMPT v2]";
    forall i | 0 <= i < 30 ensures CONTRACT.prefix[i] != '#' { }
  }
}
