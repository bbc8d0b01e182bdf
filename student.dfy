/**
 * The `Student` record of models.py: a name, the classes taken (given as
 * one string and split on ", " when the object is built) and the time
 * constraints, read back through two getters.
 */
module StudentModel {
  import opened Text

  /** The separator models.py splits the classes-taken string on. */
  const CLASS_SEPARATOR: string := ", "

  class Student {
    var name: string
    var classesTaken: seq<string>
    var timeConstraints: string
    /** The string the classes were split from. */
    ghost var classesText: string

    ghost predicate Valid()
      reads this
    {
      classesTaken == Split(classesText, CLASS_SEPARATOR)
    }

    /** `Student(name, classes_taken, time_constraints)`. */
    constructor(name: string, classesTaken: string, timeConstraints: string)
      ensures Valid()
      ensures this.name == name && this.timeConstraints == timeConstraints
      ensures this.classesText == classesTaken
      ensures this.classesTaken == Split(classesTaken, CLASS_SEPARATOR)
    {
      this.name := name;
      this.classesTaken := Split(classesTaken, CLASS_SEPARATOR);
      this.timeConstraints := timeConstraints;
      this.classesText := classesTaken;
    }

    /**
     * `get_classes_taken`: the stored list, which joins back with ", " into
     * the string it was built from and has one entry more than that string
     * has separators (so "" gives the single entry "").
     */
    method GetClassesTaken() returns (classes: seq<string>)
      requires Valid()
      ensures classes == classesTaken
      ensures Join(classes, CLASS_SEPARATOR) == classesText
      ensures |classes| == Occurrences(classesText, CLASS_SEPARATOR) + 1
    {
      JoinSplit(classesText, CLASS_SEPARATOR);
      SplitCount(classesText, CLASS_SEPARATOR);
      return classesTaken;
    }

    /** `get_time_constraints`: the constructor argument, unchanged. */
    method GetTimeConstraints() returns (constraints: string)
      ensures constraints == timeConstraints
    {
      return timeConstraints;
    }
  }

  /** Building a student and reading the classes back gives the split of the string passed in, which rejoins to it. */
  method ClassesTakenRoundTrip(name: string, classes: string, constraints: string) returns (taken: seq<string>)
    ensures taken == Split(classes, CLASS_SEPARATOR)
    ensures Join(taken, CLASS_SEPARATOR) == classes
  {
    var student := new Student(name, classes, constraints);
    taken := student.GetClassesTaken();
  }
}
