/** The skills step: an input field for a new skill, and add/remove
    handlers that write the record back through the builder. */
module Skills {
  import opened Text
  import opened Labels
  import opened Wizard

  class SkillsStep {
    /** The text in the "Add Skill" input. */
    var newSkill: string

    constructor ()
      ensures newSkill == ""
    {
      newSkill := "";
    }

    /** Typing in the input. */
    method SetNewSkill(value: string)
      modifies this
      ensures newSkill == value
    {
      newSkill := value;
    }

    /** `addSkill`: when the trimmed input is non-blank and new, append it to
        the skills and clear the input; otherwise change nothing. Profile,
        about and projects are never touched. */
    method AddSkill(host: Builder)
      modifies this, host`portfolioData
      ensures host.portfolioData == old(host.portfolioData).(skills := AddLabel(old(host.portfolioData.skills), old(newSkill)))
      ensures newSkill == if Admits(old(host.portfolioData.skills), old(newSkill)) then "" else old(newSkill)
    {
      var data := host.portfolioData;
      var skill := Trim(newSkill);
      if skill != "" && skill !in data.skills {
        host.UpdateData(data.(skills := data.skills + [skill]));
        newSkill := "";
      }
    }

    /** `removeSkill`: drop every copy of `skill`, leaving the input and the
        other fields of the record alone. */
    method RemoveSkill(host: Builder, skill: string)
      modifies host`portfolioData
      ensures host.portfolioData == old(host.portfolioData).(skills := RemoveLabel(old(host.portfolioData.skills), skill))
    {
      var data := host.portfolioData;
      host.UpdateData(data.(skills := RemoveLabel(data.skills, skill)));
    }
  }
}
