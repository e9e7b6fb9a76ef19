// The admin dashboard's records other than blog posts, with the fields the
// managers and stores read. (Blog posts are `Blocks.BlogPost`.)
module Entities {
  import opened Wrappers

  datatype Project = Project(
    id: int,
    name: string,
    date: string,
    link: string,
    tags: seq<string>,
    desc: string,
    image: string,
    category: string)

  datatype Skill = Skill(id: string, name: string, icon: string, category: Option<string>)

  datatype Social = Social(id: string, name: string, url: string, icon: string, platform: string)

  datatype Experience = Experience(
    id: string,
    company: string,
    position: string,
    startDate: string,
    endDate: string,
    description: string,
    technologies: seq<string>,
    location: Option<string>)

  function ProjectId(p: Project): int { p.id }
  function SkillId(s: Skill): string { s.id }
  function SocialId(s: Social): string { s.id }
  function ExperienceId(e: Experience): string { e.id }
}
